/**
  The lower-case column of the connector's Unicode case tables, and how the
  two columns undo each other. Upper-casing is what the connector uses; the
  other column is here as a second witness of which characters are letters.
  */
module LowerTable {
  import opened Utf8
  import opened CaseTable

  function Lower00(w: Code): Code {
    if 0x41 <= w <= 0x5a || 0xc0 <= w <= 0xd6 || 0xd8 <= w <= 0xde then w + 0x20
    else w
  }

  function Lower0100(w: Code): Code {
    if (0x100 <= w <= 0x12e && w & 1 == 0) || (0x132 <= w <= 0x136 && w & 1 == 0) ||
       (0x139 <= w <= 0x13f && w & 1 == 1)
    then w + 0x1
    else if w == 0x130 then w - 0xc7
    else w
  }

  function Lower0140(w: Code): Code {
    if (0x141 <= w <= 0x147 && w & 1 == 1) || (0x14a <= w <= 0x176 && w & 1 == 0) ||
       (0x179 <= w <= 0x17d && w & 1 == 1)
    then w + 0x1
    else if w == 0x178 then w - 0x79
    else w
  }

  function Lower0180(w: Code): Code {
    if w == 0x181 then w + 0xd2
    else if (0x182 <= w <= 0x184 && w & 1 == 0) || w == 0x187 || w == 0x18b || w == 0x191 || w == 0x198
    then w + 0x1
    else if w == 0x186 then w + 0xce
    else if 0x189 <= w <= 0x18a || w == 0x193 then w + 0xcd
    else if w == 0x18e then w + 0x4f
    else if w == 0x18f then w + 0xca
    else if w == 0x190 then w + 0xcb
    else if w == 0x194 then w + 0xcf
    else if w == 0x196 || w == 0x19c then w + 0xd3
    else if w == 0x197 then w + 0xd1
    else if w == 0x19d then w + 0xd5
    else if w == 0x19f then w + 0xd6
    else w
  }

  function Lower01A0(w: Code): Code {
    if (0x1a0 <= w <= 0x1a4 && w & 1 == 0) || w == 0x1a7 || w == 0x1ac || w == 0x1af ||
       (0x1b3 <= w <= 0x1b5 && w & 1 == 1) || w == 0x1b8 || w == 0x1bc
    then w + 0x1
    else if w == 0x1a6 || w == 0x1a9 || w == 0x1ae then w + 0xda
    else if 0x1b1 <= w <= 0x1b2 then w + 0xd9
    else if w == 0x1b7 then w + 0xdb
    else w
  }

  function Lower01C0(w: Code): Code {
    if w == 0x1c4 || w == 0x1c7 || w == 0x1ca then w + 0x2
    else if w == 0x1c5 || w == 0x1c8 || (0x1cb <= w <= 0x1db && w & 1 == 1) || w == 0x1de then w + 0x1
    else w
  }

  function Lower01E0(w: Code): Code {
    if (0x1e0 <= w <= 0x1ee && w & 1 == 0) || (0x1f2 <= w <= 0x1f4 && w & 1 == 0) ||
       (0x1f8 <= w <= 0x1fe && w & 1 == 0)
    then w + 0x1
    else if w == 0x1f1 then w + 0x2
    else if w == 0x1f6 then w - 0x61
    else if w == 0x1f7 then w - 0x38
    else w
  }

  function Lower01(w: Code): Code {
    if w <= 0x13f then Lower0100(w)
    else if w <= 0x17f then Lower0140(w)
    else if w <= 0x19f then Lower0180(w)
    else if w <= 0x1bf then Lower01A0(w)
    else if w <= 0x1df then Lower01C0(w)
    else Lower01E0(w)
  }

  function Lower0200(w: Code): Code {
    if (0x200 <= w <= 0x21e && w & 1 == 0) || (0x222 <= w <= 0x232 && w & 1 == 0) then w + 0x1
    else w
  }

  function Lower0240(w: Code): Code {
    w
  }

  function Lower026C(w: Code): Code {
    w
  }

  function Lower02(w: Code): Code {
    if w <= 0x23f then Lower0200(w)
    else if w <= 0x26b then Lower0240(w)
    else Lower026C(w)
  }

  function Lower0300(w: Code): Code {
    if w == 0x386 then w + 0x26
    else if 0x388 <= w <= 0x38a then w + 0x25
    else if w == 0x38c then w + 0x40
    else if 0x38e <= w <= 0x38f then w + 0x3f
    else if 0x391 <= w <= 0x39f then w + 0x20
    else w
  }

  function Lower03A0(w: Code): Code {
    if 0x3a0 <= w <= 0x3a1 || 0x3a3 <= w <= 0x3ab then w + 0x20
    else w
  }

  function Lower03CC(w: Code): Code {
    if (0x3da <= w <= 0x3ee && w & 1 == 0) then w + 0x1
    else w
  }

  function Lower03(w: Code): Code {
    if w <= 0x39f then Lower0300(w)
    else if w <= 0x3cb then Lower03A0(w)
    else Lower03CC(w)
  }

  function Lower0400(w: Code): Code {
    if 0x400 <= w <= 0x40f then w + 0x50
    else if 0x410 <= w <= 0x42f then w + 0x20
    else w
  }

  function Lower0460(w: Code): Code {
    if (0x460 <= w <= 0x480 && w & 1 == 0) || (0x48c <= w <= 0x4be && w & 1 == 0) ||
       (0x4c1 <= w <= 0x4c3 && w & 1 == 1) || w == 0x4c7 || w == 0x4cb || (0x4d0 <= w <= 0x4f4 && w & 1 == 0) ||
       w == 0x4f8
    then w + 0x1
    else w
  }

  function Lower04(w: Code): Code {
    if w <= 0x45f then Lower0400(w)
    else Lower0460(w)
  }

  function Lower05(w: Code): Code {
    if 0x531 <= w <= 0x556 then w + 0x30
    else w
  }

  function Lower1E(w: Code): Code {
    if (0x1e00 <= w <= 0x1e94 && w & 1 == 0) || (0x1ea0 <= w <= 0x1ef8 && w & 1 == 0) then w + 0x1
    else w
  }

  function Lower1F00(w: Code): Code {
    if 0x1f08 <= w <= 0x1f0f || 0x1f18 <= w <= 0x1f1d || 0x1f28 <= w <= 0x1f2f || 0x1f38 <= w <= 0x1f3f ||
       0x1f48 <= w <= 0x1f4d
    then w - 0x8
    else w
  }

  function Lower1F50(w: Code): Code {
    if (0x1f59 <= w <= 0x1f5f && w & 1 == 1) || 0x1f68 <= w <= 0x1f6f then w - 0x8
    else w
  }

  function Lower1F70(w: Code): Code {
    if 0x1f88 <= w <= 0x1f8f || 0x1f98 <= w <= 0x1f9f || 0x1fa8 <= w <= 0x1faf then w - 0x8
    else w
  }

  function Lower1FB0(w: Code): Code {
    if 0x1fb8 <= w <= 0x1fb9 then w - 0x8
    else if 0x1fba <= w <= 0x1fbb then w - 0x4a
    else if w == 0x1fbc || w == 0x1fcc then w - 0x9
    else if 0x1fc8 <= w <= 0x1fcb then w - 0x56
    else w
  }

  function Lower1FD0(w: Code): Code {
    if 0x1fd8 <= w <= 0x1fd9 || 0x1fe8 <= w <= 0x1fe9 then w - 0x8
    else if 0x1fda <= w <= 0x1fdb then w - 0x64
    else if 0x1fea <= w <= 0x1feb then w - 0x70
    else if w == 0x1fec then w - 0x7
    else if 0x1ff8 <= w <= 0x1ff9 then w - 0x80
    else if 0x1ffa <= w <= 0x1ffb then w - 0x7e
    else if w == 0x1ffc then w - 0x9
    else w
  }

  function Lower1F(w: Code): Code {
    if w <= 0x1f4f then Lower1F00(w)
    else if w <= 0x1f6f then Lower1F50(w)
    else if w <= 0x1faf then Lower1F70(w)
    else if w <= 0x1fcf then Lower1FB0(w)
    else Lower1FD0(w)
  }

  function Lower21(w: Code): Code {
    if w == 0x2126 then w - 0x1d5d
    else if w == 0x212a then w - 0x20bf
    else if w == 0x212b then w - 0x2046
    else if 0x2160 <= w <= 0x216f then w + 0x10
    else w
  }

  function Lower24(w: Code): Code {
    if 0x24b6 <= w <= 0x24cf then w + 0x1a
    else w
  }

  function LowerFF(w: Code): Code {
    if 0xff21 <= w <= 0xff3a then w + 0x20
    else w
  }

  /** uni_plane[plane] ? uni_plane[plane][wc & 0xFF].tolower : wc */
  function Lower(w: Code): Code {
    if w >> 8 == 0x0 then Lower00(w)
    else if w >> 8 == 0x1 then Lower01(w)
    else if w >> 8 == 0x2 then Lower02(w)
    else if w >> 8 == 0x3 then Lower03(w)
    else if w >> 8 == 0x4 then Lower04(w)
    else if w >> 8 == 0x5 then Lower05(w)
    else if w >> 8 == 0x1e then Lower1E(w)
    else if w >> 8 == 0x1f then Lower1F(w)
    else if w >> 8 == 0x21 then Lower21(w)
    else if w >> 8 == 0x24 then Lower24(w)
    else if w >> 8 == 0xff then LowerFF(w)
    else w
  }

  /** Dotted I and the signs ohm, kelvin and angstrom: their lower case belongs to another upper case. */
  function Resolved(w: Code): Code {
    if w == 0x130 then 0x49
    else if w == 0x2126 then 0x3a9
    else if w == 0x212a then 0x4b
    else if w == 0x212b then 0xc5
    else Upper(w)
  }

  /** Variants such as the long s and the final sigma: their upper case belongs to another lower case. */
  function Plain(w: Code): Code {
    if w == 0xb5 then 0x3bc
    else if w == 0x131 then 0x69
    else if w == 0x17f then 0x73
    else if w == 0x345 then 0x3b9
    else if w == 0x3c2 then 0x3c3
    else if w == 0x3d0 then 0x3b2
    else if w == 0x3d1 then 0x3b8
    else if w == 0x3d5 then 0x3c6
    else if w == 0x3d6 then 0x3c0
    else if w == 0x3f0 then 0x3ba
    else if w == 0x3f1 then 0x3c1
    else if w == 0x3f2 then 0x3c3
    else if w == 0x1e9b then 0x1e61
    else if w == 0x1fbe then 0x3b9
    else Lower(w)
  }

  predicate IsSign(w: Code) {
    w == 0x130 || w == 0x2126 || w == 0x212a || w == 0x212b
  }

  predicate IsVariant(w: Code) {
    w == 0xb5 || w == 0x131 || w == 0x17f || w == 0x345 || w == 0x3c2 || w == 0x3d0 || w == 0x3d1 ||
    w == 0x3d5 || w == 0x3d6 || w == 0x3f0 || w == 0x3f1 || w == 0x3f2 || w == 0x1e9b || w == 0x1fbe
  }

  /** The four digraphs in title case. */
  predicate IsTitle(w: Code) {
    w == 0x1c5 || w == 0x1c8 || w == 0x1cb || w == 0x1f2
  }

  // One lemma a block for each of the two ways round, and for the digraphs.

  lemma Down00(w: Code)
    requires 0x0 <= w <= 0xff
    ensures Upper(Lower00(w)) == Plane00(w)
  {
    hide Plane0100, Plane0140, Plane0180, Plane01A0, Plane01C0, Plane01E0, Plane0200, Plane0240, Plane026C;
    hide Plane0300, Plane03A0, Plane03CC, Plane0400, Plane0460, Plane05, Plane1E, Plane1F00, Plane1F50;
    hide Plane1F70, Plane1FB0, Plane1FD0, Plane21, Plane24, PlaneFF, Lower0100, Lower0140, Lower0180;
    hide Lower01A0, Lower01C0, Lower01E0, Lower0200, Lower0240, Lower026C, Lower0300, Lower03A0, Lower03CC;
    hide Lower0400, Lower0460, Lower05, Lower1E, Lower1F00, Lower1F50, Lower1F70, Lower1FB0, Lower1FD0;
    hide Lower21, Lower24, LowerFF;
  }

  lemma Down0100(w: Code)
    requires 0x100 <= w <= 0x13f
    ensures Upper(Lower0100(w)) ==
            if w == 0x130 then 0x49 else Plane0100(w)
  {
    hide Plane0180, Plane01A0, Plane01C0, Plane01E0, Plane0200, Plane0240, Plane026C, Plane0300, Plane03A0;
    hide Plane03CC, Plane0400, Plane0460, Plane05, Plane1E, Plane1F00, Plane1F50, Plane1F70, Plane1FB0;
    hide Plane1FD0, Plane21, Plane24, PlaneFF, Lower00, Lower0140, Lower0180, Lower01A0, Lower01C0;
    hide Lower01E0, Lower0200, Lower0240, Lower026C, Lower0300, Lower03A0, Lower03CC, Lower0400, Lower0460;
    hide Lower05, Lower1E, Lower1F00, Lower1F50, Lower1F70, Lower1FB0, Lower1FD0, Lower21, Lower24, LowerFF;
  }

  lemma Down0140(w: Code)
    requires 0x140 <= w <= 0x17f
    ensures Upper(Lower0140(w)) == Plane0140(w)
  {
    hide Plane0100, Plane0180, Plane01A0, Plane01C0, Plane01E0, Plane0200, Plane0240, Plane026C, Plane0300;
    hide Plane03A0, Plane03CC, Plane0400, Plane0460, Plane05, Plane1E, Plane1F00, Plane1F50, Plane1F70;
    hide Plane1FB0, Plane1FD0, Plane21, Plane24, PlaneFF, Lower00, Lower0100, Lower0180, Lower01A0;
    hide Lower01C0, Lower01E0, Lower0200, Lower0240, Lower026C, Lower0300, Lower03A0, Lower03CC, Lower0400;
    hide Lower0460, Lower05, Lower1E, Lower1F00, Lower1F50, Lower1F70, Lower1FB0, Lower1FD0, Lower21;
    hide Lower24, LowerFF;
  }

  lemma Down0180(w: Code)
    requires 0x180 <= w <= 0x19f
    ensures Upper(Lower0180(w)) == Plane0180(w)
  {
    hide Plane00, Plane0100, Plane0140, Plane01A0, Plane01E0, Plane0200, Plane0300, Plane03A0, Plane03CC;
    hide Plane0400, Plane0460, Plane05, Plane1E, Plane1F00, Plane1F50, Plane1F70, Plane1FB0, Plane1FD0;
    hide Plane21, Plane24, PlaneFF, Lower00, Lower0100, Lower0140, Lower01A0, Lower01C0, Lower01E0;
    hide Lower0200, Lower0240, Lower026C, Lower0300, Lower03A0, Lower03CC, Lower0400, Lower0460, Lower05;
    hide Lower1E, Lower1F00, Lower1F50, Lower1F70, Lower1FB0, Lower1FD0, Lower21, Lower24, LowerFF;
  }

  lemma Down01A0(w: Code)
    requires 0x1a0 <= w <= 0x1bf
    ensures Upper(Lower01A0(w)) == Plane01A0(w)
  {
    hide Plane00, Plane0100, Plane0140, Plane0180, Plane01C0, Plane01E0, Plane0200, Plane0240, Plane0300;
    hide Plane03A0, Plane03CC, Plane0400, Plane0460, Plane05, Plane1E, Plane1F00, Plane1F50, Plane1F70;
    hide Plane1FB0, Plane1FD0, Plane21, Plane24, PlaneFF, Lower00, Lower0100, Lower0140, Lower0180;
    hide Lower01C0, Lower01E0, Lower0200, Lower0240, Lower026C, Lower0300, Lower03A0, Lower03CC, Lower0400;
    hide Lower0460, Lower05, Lower1E, Lower1F00, Lower1F50, Lower1F70, Lower1FB0, Lower1FD0, Lower21;
    hide Lower24, LowerFF;
  }

  lemma Down01C0(w: Code)
    requires 0x1c0 <= w <= 0x1df
    ensures Upper(Lower01C0(w)) == Plane01C0(w)
  {
    hide Plane00, Plane0100, Plane0140, Plane0180, Plane01A0, Plane01E0, Plane0200, Plane0240, Plane026C;
    hide Plane0300, Plane03A0, Plane03CC, Plane0400, Plane0460, Plane05, Plane1E, Plane1F00, Plane1F50;
    hide Plane1F70, Plane1FB0, Plane1FD0, Plane21, Plane24, PlaneFF, Lower00, Lower0100, Lower0140;
    hide Lower0180, Lower01A0, Lower01E0, Lower0200, Lower0240, Lower026C, Lower0300, Lower03A0, Lower03CC;
    hide Lower0400, Lower0460, Lower05, Lower1E, Lower1F00, Lower1F50, Lower1F70, Lower1FB0, Lower1FD0;
    hide Lower21, Lower24, LowerFF;
  }

  lemma Down01E0(w: Code)
    requires 0x1e0 <= w <= 0x1ff
    ensures Upper(Lower01E0(w)) == Plane01E0(w)
  {
    hide Plane00, Plane0100, Plane0140, Plane01C0, Plane0200, Plane0240, Plane026C, Plane0300, Plane03A0;
    hide Plane03CC, Plane0400, Plane0460, Plane05, Plane1E, Plane1F00, Plane1F50, Plane1F70, Plane1FB0;
    hide Plane1FD0, Plane21, Plane24, PlaneFF, Lower00, Lower0100, Lower0140, Lower0180, Lower01A0;
    hide Lower01C0, Lower0200, Lower0240, Lower026C, Lower0300, Lower03A0, Lower03CC, Lower0400, Lower0460;
    hide Lower05, Lower1E, Lower1F00, Lower1F50, Lower1F70, Lower1FB0, Lower1FD0, Lower21, Lower24, LowerFF;
  }

  lemma Down0200(w: Code)
    requires 0x200 <= w <= 0x23f
    ensures Upper(Lower0200(w)) == Plane0200(w)
  {
    hide Plane00, Plane0100, Plane0140, Plane0180, Plane01A0, Plane01C0, Plane01E0, Plane0240, Plane026C;
    hide Plane0300, Plane03A0, Plane03CC, Plane0400, Plane0460, Plane05, Plane1E, Plane1F00, Plane1F50;
    hide Plane1F70, Plane1FB0, Plane1FD0, Plane21, Plane24, PlaneFF, Lower00, Lower0100, Lower0140;
    hide Lower0180, Lower01A0, Lower01C0, Lower01E0, Lower0240, Lower026C, Lower0300, Lower03A0, Lower03CC;
    hide Lower0400, Lower0460, Lower05, Lower1E, Lower1F00, Lower1F50, Lower1F70, Lower1FB0, Lower1FD0;
    hide Lower21, Lower24, LowerFF;
  }

  lemma Down0240(w: Code)
    requires 0x240 <= w <= 0x26b
    ensures Upper(Lower0240(w)) == Plane0240(w)
  {
    hide Plane00, Plane0100, Plane0140, Plane0180, Plane01A0, Plane01C0, Plane01E0, Plane0200, Plane026C;
    hide Plane0300, Plane03A0, Plane03CC, Plane0400, Plane0460, Plane05, Plane1E, Plane1F00, Plane1F50;
    hide Plane1F70, Plane1FB0, Plane1FD0, Plane21, Plane24, PlaneFF, Lower00, Lower0100, Lower0140;
    hide Lower0180, Lower01A0, Lower01C0, Lower01E0, Lower0200, Lower026C, Lower0300, Lower03A0, Lower03CC;
    hide Lower0400, Lower0460, Lower05, Lower1E, Lower1F00, Lower1F50, Lower1F70, Lower1FB0, Lower1FD0;
    hide Lower21, Lower24, LowerFF;
  }

  lemma Down026C(w: Code)
    requires 0x26c <= w <= 0x2ff
    ensures Upper(Lower026C(w)) == Plane026C(w)
  {
    hide Plane00, Plane0100, Plane0140, Plane0180, Plane01A0, Plane01C0, Plane01E0, Plane0200, Plane0240;
    hide Plane0300, Plane03A0, Plane03CC, Plane0400, Plane0460, Plane05, Plane1E, Plane1F00, Plane1F50;
    hide Plane1F70, Plane1FB0, Plane1FD0, Plane21, Plane24, PlaneFF, Lower00, Lower0100, Lower0140;
    hide Lower0180, Lower01A0, Lower01C0, Lower01E0, Lower0200, Lower0240, Lower0300, Lower03A0, Lower03CC;
    hide Lower0400, Lower0460, Lower05, Lower1E, Lower1F00, Lower1F50, Lower1F70, Lower1FB0, Lower1FD0;
    hide Lower21, Lower24, LowerFF;
  }

  lemma Down0300(w: Code)
    requires 0x300 <= w <= 0x39f
    ensures Upper(Lower0300(w)) == Plane0300(w)
  {
    hide Plane00, Plane0100, Plane0140, Plane0180, Plane01A0, Plane01C0, Plane01E0, Plane0200, Plane0240;
    hide Plane026C, Plane0400, Plane0460, Plane05, Plane1E, Plane1F00, Plane1F50, Plane1F70, Plane1FB0;
    hide Plane1FD0, Plane21, Plane24, PlaneFF, Lower00, Lower0100, Lower0140, Lower0180, Lower01A0;
    hide Lower01C0, Lower01E0, Lower0200, Lower0240, Lower026C, Lower03A0, Lower03CC, Lower0400, Lower0460;
    hide Lower05, Lower1E, Lower1F00, Lower1F50, Lower1F70, Lower1FB0, Lower1FD0, Lower21, Lower24, LowerFF;
  }

  lemma Down03A0(w: Code)
    requires 0x3a0 <= w <= 0x3cb
    ensures Upper(Lower03A0(w)) == Plane03A0(w)
  {
    hide Plane00, Plane0100, Plane0140, Plane0180, Plane01A0, Plane01C0, Plane01E0, Plane0200, Plane0240;
    hide Plane026C, Plane0300, Plane03CC, Plane0400, Plane0460, Plane05, Plane1E, Plane1F00, Plane1F50;
    hide Plane1F70, Plane1FB0, Plane1FD0, Plane21, Plane24, PlaneFF, Lower00, Lower0100, Lower0140;
    hide Lower0180, Lower01A0, Lower01C0, Lower01E0, Lower0200, Lower0240, Lower026C, Lower0300, Lower03CC;
    hide Lower0400, Lower0460, Lower05, Lower1E, Lower1F00, Lower1F50, Lower1F70, Lower1FB0, Lower1FD0;
    hide Lower21, Lower24, LowerFF;
  }

  lemma Down03CC(w: Code)
    requires 0x3cc <= w <= 0x3ff
    ensures Upper(Lower03CC(w)) == Plane03CC(w)
  {
    hide Plane00, Plane0100, Plane0140, Plane0180, Plane01A0, Plane01C0, Plane01E0, Plane0200, Plane0240;
    hide Plane026C, Plane0300, Plane03A0, Plane0400, Plane0460, Plane05, Plane1E, Plane1F00, Plane1F50;
    hide Plane1F70, Plane1FB0, Plane1FD0, Plane21, Plane24, PlaneFF, Lower00, Lower0100, Lower0140;
    hide Lower0180, Lower01A0, Lower01C0, Lower01E0, Lower0200, Lower0240, Lower026C, Lower0300, Lower03A0;
    hide Lower0400, Lower0460, Lower05, Lower1E, Lower1F00, Lower1F50, Lower1F70, Lower1FB0, Lower1FD0;
    hide Lower21, Lower24, LowerFF;
  }

  lemma Down0400(w: Code)
    requires 0x400 <= w <= 0x45f
    ensures Upper(Lower0400(w)) == Plane0400(w)
  {
    hide Plane00, Plane0100, Plane0140, Plane0180, Plane01A0, Plane01C0, Plane01E0, Plane0200, Plane0240;
    hide Plane026C, Plane0300, Plane03A0, Plane03CC, Plane0460, Plane05, Plane1E, Plane1F00, Plane1F50;
    hide Plane1F70, Plane1FB0, Plane1FD0, Plane21, Plane24, PlaneFF, Lower00, Lower0100, Lower0140;
    hide Lower0180, Lower01A0, Lower01C0, Lower01E0, Lower0200, Lower0240, Lower026C, Lower0300, Lower03A0;
    hide Lower03CC, Lower0460, Lower05, Lower1E, Lower1F00, Lower1F50, Lower1F70, Lower1FB0, Lower1FD0;
    hide Lower21, Lower24, LowerFF;
  }

  lemma Down0460(w: Code)
    requires 0x460 <= w <= 0x4ff
    ensures Upper(Lower0460(w)) == Plane0460(w)
  {
    hide Plane00, Plane0100, Plane0140, Plane0180, Plane01A0, Plane01C0, Plane01E0, Plane0200, Plane0240;
    hide Plane026C, Plane0300, Plane03A0, Plane03CC, Plane0400, Plane05, Plane1E, Plane1F00, Plane1F50;
    hide Plane1F70, Plane1FB0, Plane1FD0, Plane21, Plane24, PlaneFF, Lower00, Lower0100, Lower0140;
    hide Lower0180, Lower01A0, Lower01C0, Lower01E0, Lower0200, Lower0240, Lower026C, Lower0300, Lower03A0;
    hide Lower03CC, Lower0400, Lower05, Lower1E, Lower1F00, Lower1F50, Lower1F70, Lower1FB0, Lower1FD0;
    hide Lower21, Lower24, LowerFF;
  }

  lemma Down05(w: Code)
    requires 0x500 <= w <= 0x5ff
    ensures Upper(Lower05(w)) == Plane05(w)
  {
    hide Plane00, Plane0100, Plane0140, Plane0180, Plane01A0, Plane01C0, Plane01E0, Plane0200, Plane0240;
    hide Plane026C, Plane0300, Plane03A0, Plane03CC, Plane0400, Plane0460, Plane1E, Plane1F00, Plane1F50;
    hide Plane1F70, Plane1FB0, Plane1FD0, Plane21, Plane24, PlaneFF, Lower00, Lower0100, Lower0140;
    hide Lower0180, Lower01A0, Lower01C0, Lower01E0, Lower0200, Lower0240, Lower026C, Lower0300, Lower03A0;
    hide Lower03CC, Lower0400, Lower0460, Lower1E, Lower1F00, Lower1F50, Lower1F70, Lower1FB0, Lower1FD0;
    hide Lower21, Lower24, LowerFF;
  }

  lemma Down1E(w: Code)
    requires 0x1e00 <= w <= 0x1eff
    ensures Upper(Lower1E(w)) == Plane1E(w)
  {
    hide Plane00, Plane0100, Plane0140, Plane0180, Plane01A0, Plane01C0, Plane01E0, Plane0200, Plane0240;
    hide Plane026C, Plane0300, Plane03A0, Plane03CC, Plane0400, Plane0460, Plane05, Plane1F00, Plane1F50;
    hide Plane1F70, Plane1FB0, Plane1FD0, Plane21, Plane24, PlaneFF, Lower00, Lower0100, Lower0140;
    hide Lower0180, Lower01A0, Lower01C0, Lower01E0, Lower0200, Lower0240, Lower026C, Lower0300, Lower03A0;
    hide Lower03CC, Lower0400, Lower0460, Lower05, Lower1F00, Lower1F50, Lower1F70, Lower1FB0, Lower1FD0;
    hide Lower21, Lower24, LowerFF;
  }

  lemma Down1F00(w: Code)
    requires 0x1f00 <= w <= 0x1f4f
    ensures Upper(Lower1F00(w)) == Plane1F00(w)
  {
    hide Plane00, Plane0100, Plane0140, Plane0180, Plane01A0, Plane01C0, Plane01E0, Plane0200, Plane0240;
    hide Plane026C, Plane0300, Plane03A0, Plane03CC, Plane0400, Plane0460, Plane05, Plane1E, Plane1F50;
    hide Plane1F70, Plane1FB0, Plane1FD0, Plane21, Plane24, PlaneFF, Lower00, Lower0100, Lower0140;
    hide Lower0180, Lower01A0, Lower01C0, Lower01E0, Lower0200, Lower0240, Lower026C, Lower0300, Lower03A0;
    hide Lower03CC, Lower0400, Lower0460, Lower05, Lower1E, Lower1F50, Lower1F70, Lower1FB0, Lower1FD0;
    hide Lower21, Lower24, LowerFF;
  }

  lemma Down1F50(w: Code)
    requires 0x1f50 <= w <= 0x1f6f
    ensures Upper(Lower1F50(w)) == Plane1F50(w)
  {
    hide Plane00, Plane0100, Plane0140, Plane0180, Plane01A0, Plane01C0, Plane01E0, Plane0200, Plane0240;
    hide Plane026C, Plane0300, Plane03A0, Plane03CC, Plane0400, Plane0460, Plane05, Plane1E, Plane1F00;
    hide Plane1F70, Plane1FB0, Plane1FD0, Plane21, Plane24, PlaneFF, Lower00, Lower0100, Lower0140;
    hide Lower0180, Lower01A0, Lower01C0, Lower01E0, Lower0200, Lower0240, Lower026C, Lower0300, Lower03A0;
    hide Lower03CC, Lower0400, Lower0460, Lower05, Lower1E, Lower1F00, Lower1F70, Lower1FB0, Lower1FD0;
    hide Lower21, Lower24, LowerFF;
  }

  lemma Down1F70(w: Code)
    requires 0x1f70 <= w <= 0x1faf
    ensures Upper(Lower1F70(w)) == Plane1F70(w)
  {
    hide Plane00, Plane0100, Plane0140, Plane0180, Plane01A0, Plane01C0, Plane01E0, Plane0200, Plane0240;
    hide Plane026C, Plane0300, Plane03A0, Plane03CC, Plane0400, Plane0460, Plane05, Plane1E, Plane1F00;
    hide Plane1F50, Plane1FB0, Plane1FD0, Plane21, Plane24, PlaneFF, Lower00, Lower0100, Lower0140;
    hide Lower0180, Lower01A0, Lower01C0, Lower01E0, Lower0200, Lower0240, Lower026C, Lower0300, Lower03A0;
    hide Lower03CC, Lower0400, Lower0460, Lower05, Lower1E, Lower1F00, Lower1F50, Lower1FB0, Lower1FD0;
    hide Lower21, Lower24, LowerFF;
  }

  lemma Down1FB0(w: Code)
    requires 0x1fb0 <= w <= 0x1fcf
    ensures Upper(Lower1FB0(w)) == Plane1FB0(w)
  {
    hide Plane00, Plane0100, Plane0140, Plane0180, Plane01A0, Plane01C0, Plane01E0, Plane0200, Plane0240;
    hide Plane026C, Plane0300, Plane03A0, Plane03CC, Plane0400, Plane0460, Plane05, Plane1E, Plane1F00;
    hide Plane1F50, Plane1FD0, Plane21, Plane24, PlaneFF, Lower00, Lower0100, Lower0140, Lower0180;
    hide Lower01A0, Lower01C0, Lower01E0, Lower0200, Lower0240, Lower026C, Lower0300, Lower03A0, Lower03CC;
    hide Lower0400, Lower0460, Lower05, Lower1E, Lower1F00, Lower1F50, Lower1F70, Lower1FD0, Lower21;
    hide Lower24, LowerFF;
  }

  lemma Down1FD0(w: Code)
    requires 0x1fd0 <= w <= 0x1fff
    ensures Upper(Lower1FD0(w)) == Plane1FD0(w)
  {
    hide Plane00, Plane0100, Plane0140, Plane0180, Plane01A0, Plane01C0, Plane01E0, Plane0200, Plane0240;
    hide Plane026C, Plane0300, Plane03A0, Plane03CC, Plane0400, Plane0460, Plane05, Plane1E, Plane1F00;
    hide Plane1F50, Plane1FB0, Plane21, Plane24, PlaneFF, Lower00, Lower0100, Lower0140, Lower0180;
    hide Lower01A0, Lower01C0, Lower01E0, Lower0200, Lower0240, Lower026C, Lower0300, Lower03A0, Lower03CC;
    hide Lower0400, Lower0460, Lower05, Lower1E, Lower1F00, Lower1F50, Lower1F70, Lower1FB0, Lower21;
    hide Lower24, LowerFF;
  }

  lemma Down21(w: Code)
    requires 0x2100 <= w <= 0x21ff
    ensures Upper(Lower21(w)) ==
            if w == 0x2126 then 0x3a9 else
            if w == 0x212a then 0x4b else
            if w == 0x212b then 0xc5 else Plane21(w)
  {
    hide Plane0100, Plane0140, Plane0180, Plane01A0, Plane01C0, Plane01E0, Plane0200, Plane0240, Plane026C;
    hide Plane0300, Plane03CC, Plane0400, Plane0460, Plane05, Plane1E, Plane1F00, Plane1F50, Plane1F70;
    hide Plane1FB0, Plane1FD0, Plane24, PlaneFF, Lower00, Lower0100, Lower0140, Lower0180, Lower01A0;
    hide Lower01C0, Lower01E0, Lower0200, Lower0240, Lower026C, Lower0300, Lower03A0, Lower03CC, Lower0400;
    hide Lower0460, Lower05, Lower1E, Lower1F00, Lower1F50, Lower1F70, Lower1FB0, Lower1FD0, Lower24;
    hide LowerFF;
  }

  lemma Down24(w: Code)
    requires 0x2400 <= w <= 0x24ff
    ensures Upper(Lower24(w)) == Plane24(w)
  {
    hide Plane00, Plane0100, Plane0140, Plane0180, Plane01A0, Plane01C0, Plane01E0, Plane0200, Plane0240;
    hide Plane026C, Plane0300, Plane03A0, Plane03CC, Plane0400, Plane0460, Plane05, Plane1E, Plane1F00;
    hide Plane1F50, Plane1F70, Plane1FB0, Plane1FD0, Plane21, PlaneFF, Lower00, Lower0100, Lower0140;
    hide Lower0180, Lower01A0, Lower01C0, Lower01E0, Lower0200, Lower0240, Lower026C, Lower0300, Lower03A0;
    hide Lower03CC, Lower0400, Lower0460, Lower05, Lower1E, Lower1F00, Lower1F50, Lower1F70, Lower1FB0;
    hide Lower1FD0, Lower21, LowerFF;
  }

  lemma DownFF(w: Code)
    requires 0xff00 <= w <= 0xffff
    ensures Upper(LowerFF(w)) == PlaneFF(w)
  {
    hide Plane00, Plane0100, Plane0140, Plane0180, Plane01A0, Plane01C0, Plane01E0, Plane0200, Plane0240;
    hide Plane026C, Plane0300, Plane03A0, Plane03CC, Plane0400, Plane0460, Plane05, Plane1E, Plane1F00;
    hide Plane1F50, Plane1F70, Plane1FB0, Plane1FD0, Plane21, Plane24, Lower00, Lower0100, Lower0140;
    hide Lower0180, Lower01A0, Lower01C0, Lower01E0, Lower0200, Lower0240, Lower026C, Lower0300, Lower03A0;
    hide Lower03CC, Lower0400, Lower0460, Lower05, Lower1E, Lower1F00, Lower1F50, Lower1F70, Lower1FB0;
    hide Lower1FD0, Lower21, Lower24;
  }

  lemma Up00(w: Code)
    requires 0x0 <= w <= 0xff
    ensures Lower(Plane00(w)) ==
            if w == 0xb5 then 0x3bc else Lower00(w)
  {
    hide Plane0100, Plane0140, Plane0180, Plane01A0, Plane01C0, Plane01E0, Plane0200, Plane0240, Plane026C;
    hide Plane0300, Plane03A0, Plane03CC, Plane0400, Plane0460, Plane05, Plane1E, Plane1F00, Plane1F50;
    hide Plane1F70, Plane1FB0, Plane1FD0, Plane21, Plane24, PlaneFF, Lower0100, Lower0180, Lower01A0;
    hide Lower01C0, Lower01E0, Lower0200, Lower0240, Lower026C, Lower03A0, Lower03CC, Lower0400, Lower0460;
    hide Lower05, Lower1E, Lower1F00, Lower1F50, Lower1F70, Lower1FB0, Lower1FD0, Lower21, Lower24, LowerFF;
  }

  lemma Up0100(w: Code)
    requires 0x100 <= w <= 0x13f
    ensures Lower(Plane0100(w)) ==
            if w == 0x131 then 0x69 else Lower0100(w)
  {
    hide Plane00, Plane0140, Plane0180, Plane01A0, Plane01C0, Plane01E0, Plane0200, Plane0240, Plane026C;
    hide Plane0300, Plane03A0, Plane03CC, Plane0400, Plane0460, Plane05, Plane1E, Plane1F00, Plane1F50;
    hide Plane1F70, Plane1FB0, Plane1FD0, Plane21, Plane24, PlaneFF, Lower0140, Lower0180, Lower01A0;
    hide Lower01C0, Lower01E0, Lower0200, Lower0240, Lower026C, Lower0300, Lower03A0, Lower03CC, Lower0400;
    hide Lower0460, Lower05, Lower1E, Lower1F00, Lower1F50, Lower1F70, Lower1FB0, Lower1FD0, Lower21;
    hide Lower24, LowerFF;
  }

  lemma Up0140(w: Code)
    requires 0x140 <= w <= 0x17f
    ensures Lower(Plane0140(w)) ==
            if w == 0x17f then 0x73 else Lower0140(w)
  {
    hide Plane00, Plane0100, Plane0180, Plane01A0, Plane01C0, Plane01E0, Plane0200, Plane0240, Plane026C;
    hide Plane0300, Plane03A0, Plane03CC, Plane0400, Plane0460, Plane05, Plane1E, Plane1F00, Plane1F50;
    hide Plane1F70, Plane1FB0, Plane1FD0, Plane21, Plane24, PlaneFF, Lower0180, Lower01A0, Lower01C0;
    hide Lower01E0, Lower0200, Lower0240, Lower026C, Lower0300, Lower03A0, Lower03CC, Lower0400, Lower0460;
    hide Lower05, Lower1E, Lower1F00, Lower1F50, Lower1F70, Lower1FB0, Lower1FD0, Lower21, Lower24, LowerFF;
  }

  lemma Up0180(w: Code)
    requires 0x180 <= w <= 0x19f
    ensures Lower(Plane0180(w)) == Lower0180(w)
  {
    hide Plane00, Plane0100, Plane0140, Plane01A0, Plane01C0, Plane01E0, Plane0200, Plane0240, Plane026C;
    hide Plane0300, Plane03A0, Plane03CC, Plane0400, Plane0460, Plane05, Plane1E, Plane1F00, Plane1F50;
    hide Plane1F70, Plane1FB0, Plane1FD0, Plane21, Plane24, PlaneFF, Lower00, Lower0100, Lower0140;
    hide Lower01A0, Lower01C0, Lower0200, Lower0240, Lower026C, Lower0300, Lower03A0, Lower03CC, Lower0400;
    hide Lower0460, Lower05, Lower1E, Lower1F00, Lower1F50, Lower1F70, Lower1FB0, Lower1FD0, Lower21;
    hide Lower24, LowerFF;
  }

  lemma Up01A0(w: Code)
    requires 0x1a0 <= w <= 0x1bf
    ensures Lower(Plane01A0(w)) == Lower01A0(w)
  {
    hide Plane00, Plane0100, Plane0140, Plane0180, Plane01C0, Plane01E0, Plane0200, Plane0240, Plane026C;
    hide Plane0300, Plane03A0, Plane03CC, Plane0400, Plane0460, Plane05, Plane1E, Plane1F00, Plane1F50;
    hide Plane1F70, Plane1FB0, Plane1FD0, Plane21, Plane24, PlaneFF, Lower00, Lower0100, Lower0140;
    hide Lower0180, Lower01C0, Lower0200, Lower0240, Lower026C, Lower0300, Lower03A0, Lower03CC, Lower0400;
    hide Lower0460, Lower05, Lower1E, Lower1F00, Lower1F50, Lower1F70, Lower1FB0, Lower1FD0, Lower21;
    hide Lower24, LowerFF;
  }

  lemma Up01C0(w: Code)
    requires 0x1c0 <= w <= 0x1df
    ensures Lower(Plane01C0(w)) == Lower01C0(w)
  {
    hide Plane00, Plane0100, Plane0140, Plane0180, Plane01A0, Plane01E0, Plane0200, Plane0240, Plane026C;
    hide Plane0300, Plane03A0, Plane03CC, Plane0400, Plane0460, Plane05, Plane1E, Plane1F00, Plane1F50;
    hide Plane1F70, Plane1FB0, Plane1FD0, Plane21, Plane24, PlaneFF, Lower00, Lower0100, Lower0140;
    hide Lower01A0, Lower01E0, Lower0200, Lower0240, Lower026C, Lower0300, Lower03A0, Lower03CC, Lower0400;
    hide Lower0460, Lower05, Lower1E, Lower1F00, Lower1F50, Lower1F70, Lower1FB0, Lower1FD0, Lower21;
    hide Lower24, LowerFF;
  }

  lemma Up01E0(w: Code)
    requires 0x1e0 <= w <= 0x1ff
    ensures Lower(Plane01E0(w)) == Lower01E0(w)
  {
    hide Plane00, Plane0100, Plane0140, Plane0180, Plane01A0, Plane01C0, Plane0200, Plane0240, Plane026C;
    hide Plane0300, Plane03A0, Plane03CC, Plane0400, Plane0460, Plane05, Plane1E, Plane1F00, Plane1F50;
    hide Plane1F70, Plane1FB0, Plane1FD0, Plane21, Plane24, PlaneFF, Lower00, Lower0100, Lower0140;
    hide Lower0180, Lower01A0, Lower01C0, Lower0200, Lower0240, Lower026C, Lower0300, Lower03A0, Lower03CC;
    hide Lower0400, Lower0460, Lower05, Lower1E, Lower1F00, Lower1F50, Lower1F70, Lower1FB0, Lower1FD0;
    hide Lower21, Lower24, LowerFF;
  }

  lemma Up0200(w: Code)
    requires 0x200 <= w <= 0x23f
    ensures Lower(Plane0200(w)) == Lower0200(w)
  {
    hide Plane00, Plane0100, Plane0140, Plane0180, Plane01A0, Plane01C0, Plane01E0, Plane0240, Plane026C;
    hide Plane0300, Plane03A0, Plane03CC, Plane0400, Plane0460, Plane05, Plane1E, Plane1F00, Plane1F50;
    hide Plane1F70, Plane1FB0, Plane1FD0, Plane21, Plane24, PlaneFF, Lower00, Lower0100, Lower0140;
    hide Lower0180, Lower01A0, Lower01C0, Lower01E0, Lower0240, Lower026C, Lower0300, Lower03A0, Lower03CC;
    hide Lower0400, Lower0460, Lower05, Lower1E, Lower1F00, Lower1F50, Lower1F70, Lower1FB0, Lower1FD0;
    hide Lower21, Lower24, LowerFF;
  }

  lemma Up0240(w: Code)
    requires 0x240 <= w <= 0x26b
    ensures Lower(Plane0240(w)) == Lower0240(w)
  {
    hide Plane00, Plane0100, Plane0140, Plane0180, Plane01A0, Plane01C0, Plane01E0, Plane0200, Plane026C;
    hide Plane0300, Plane03A0, Plane03CC, Plane0400, Plane0460, Plane05, Plane1E, Plane1F00, Plane1F50;
    hide Plane1F70, Plane1FB0, Plane1FD0, Plane21, Plane24, PlaneFF, Lower00, Lower0100, Lower0140;
    hide Lower01A0, Lower01C0, Lower01E0, Lower0200, Lower026C, Lower0300, Lower03A0, Lower03CC, Lower0400;
    hide Lower0460, Lower05, Lower1E, Lower1F00, Lower1F50, Lower1F70, Lower1FB0, Lower1FD0, Lower21;
    hide Lower24, LowerFF;
  }

  lemma Up026C(w: Code)
    requires 0x26c <= w <= 0x2ff
    ensures Lower(Plane026C(w)) == Lower026C(w)
  {
    hide Plane00, Plane0100, Plane0140, Plane0180, Plane01A0, Plane01C0, Plane01E0, Plane0200, Plane0240;
    hide Plane0300, Plane03A0, Plane03CC, Plane0400, Plane0460, Plane05, Plane1E, Plane1F00, Plane1F50;
    hide Plane1F70, Plane1FB0, Plane1FD0, Plane21, Plane24, PlaneFF, Lower00, Lower0100, Lower0140;
    hide Lower01C0, Lower01E0, Lower0200, Lower0240, Lower0300, Lower03A0, Lower03CC, Lower0400, Lower0460;
    hide Lower05, Lower1E, Lower1F00, Lower1F50, Lower1F70, Lower1FB0, Lower1FD0, Lower21, Lower24, LowerFF;
  }

  lemma Up0300(w: Code)
    requires 0x300 <= w <= 0x39f
    ensures Lower(Plane0300(w)) ==
            if w == 0x345 then 0x3b9 else Lower0300(w)
  {
    hide Plane00, Plane0100, Plane0140, Plane0180, Plane01A0, Plane01C0, Plane01E0, Plane0200, Plane0240;
    hide Plane026C, Plane03A0, Plane03CC, Plane0400, Plane0460, Plane05, Plane1E, Plane1F00, Plane1F50;
    hide Plane1F70, Plane1FB0, Plane1FD0, Plane21, Plane24, PlaneFF, Lower00, Lower0100, Lower0140;
    hide Lower0180, Lower01A0, Lower01C0, Lower01E0, Lower0200, Lower0240, Lower026C, Lower03A0, Lower03CC;
    hide Lower0400, Lower0460, Lower05, Lower1E, Lower1F00, Lower1F50, Lower1F70, Lower1FB0, Lower1FD0;
    hide Lower21, Lower24, LowerFF;
  }

  lemma Up03A0(w: Code)
    requires 0x3a0 <= w <= 0x3cb
    ensures Lower(Plane03A0(w)) ==
            if w == 0x3c2 then 0x3c3 else Lower03A0(w)
  {
    hide Plane00, Plane0100, Plane0140, Plane0180, Plane01A0, Plane01C0, Plane01E0, Plane0200, Plane0240;
    hide Plane026C, Plane0300, Plane03CC, Plane0400, Plane0460, Plane05, Plane1E, Plane1F00, Plane1F50;
    hide Plane1F70, Plane1FB0, Plane1FD0, Plane21, Plane24, PlaneFF, Lower00, Lower0100, Lower0140;
    hide Lower0180, Lower01A0, Lower01C0, Lower01E0, Lower0200, Lower0240, Lower026C, Lower03CC, Lower0400;
    hide Lower0460, Lower05, Lower1E, Lower1F00, Lower1F50, Lower1F70, Lower1FB0, Lower1FD0, Lower21;
    hide Lower24, LowerFF;
  }

  lemma Up03CC(w: Code)
    requires 0x3cc <= w <= 0x3ff
    ensures Lower(Plane03CC(w)) ==
            if w == 0x3d0 then 0x3b2 else
            if w == 0x3d1 then 0x3b8 else
            if w == 0x3d5 then 0x3c6 else
            if w == 0x3d6 then 0x3c0 else
            if w == 0x3f0 then 0x3ba else
            if w == 0x3f1 then 0x3c1 else
            if w == 0x3f2 then 0x3c3 else Lower03CC(w)
  {
    hide Plane00, Plane0100, Plane0140, Plane0180, Plane01A0, Plane01C0, Plane01E0, Plane0200, Plane0240;
    hide Plane026C, Plane0300, Plane03A0, Plane0400, Plane0460, Plane05, Plane1E, Plane1F00, Plane1F50;
    hide Plane1F70, Plane1FB0, Plane1FD0, Plane21, Plane24, PlaneFF, Lower00, Lower0100, Lower0140;
    hide Lower0180, Lower01A0, Lower01C0, Lower01E0, Lower0200, Lower0240, Lower026C, Lower0400, Lower0460;
    hide Lower05, Lower1E, Lower1F00, Lower1F50, Lower1F70, Lower1FB0, Lower1FD0, Lower21, Lower24, LowerFF;
  }

  lemma Up0400(w: Code)
    requires 0x400 <= w <= 0x45f
    ensures Lower(Plane0400(w)) == Lower0400(w)
  {
    hide Plane00, Plane0100, Plane0140, Plane0180, Plane01A0, Plane01C0, Plane01E0, Plane0200, Plane0240;
    hide Plane026C, Plane0300, Plane03A0, Plane03CC, Plane0460, Plane05, Plane1E, Plane1F00, Plane1F50;
    hide Plane1F70, Plane1FB0, Plane1FD0, Plane21, Plane24, PlaneFF, Lower00, Lower0100, Lower0140;
    hide Lower0180, Lower01A0, Lower01C0, Lower01E0, Lower0200, Lower0240, Lower026C, Lower0300, Lower03A0;
    hide Lower03CC, Lower0460, Lower05, Lower1E, Lower1F00, Lower1F50, Lower1F70, Lower1FB0, Lower1FD0;
    hide Lower21, Lower24, LowerFF;
  }

  lemma Up0460(w: Code)
    requires 0x460 <= w <= 0x4ff
    ensures Lower(Plane0460(w)) == Lower0460(w)
  {
    hide Plane00, Plane0100, Plane0140, Plane0180, Plane01A0, Plane01C0, Plane01E0, Plane0200, Plane0240;
    hide Plane026C, Plane0300, Plane03A0, Plane03CC, Plane0400, Plane05, Plane1E, Plane1F00, Plane1F50;
    hide Plane1F70, Plane1FB0, Plane1FD0, Plane21, Plane24, PlaneFF, Lower00, Lower0100, Lower0140;
    hide Lower0180, Lower01A0, Lower01C0, Lower01E0, Lower0200, Lower0240, Lower026C, Lower0300, Lower03A0;
    hide Lower03CC, Lower0400, Lower05, Lower1E, Lower1F00, Lower1F50, Lower1F70, Lower1FB0, Lower1FD0;
    hide Lower21, Lower24, LowerFF;
  }

  lemma Up05(w: Code)
    requires 0x500 <= w <= 0x5ff
    ensures Lower(Plane05(w)) == Lower05(w)
  {
    hide Plane00, Plane0100, Plane0140, Plane0180, Plane01A0, Plane01C0, Plane01E0, Plane0200, Plane0240;
    hide Plane026C, Plane0300, Plane03A0, Plane03CC, Plane0400, Plane0460, Plane1E, Plane1F00, Plane1F50;
    hide Plane1F70, Plane1FB0, Plane1FD0, Plane21, Plane24, PlaneFF, Lower00, Lower0100, Lower0140;
    hide Lower0180, Lower01A0, Lower01C0, Lower01E0, Lower0200, Lower0240, Lower026C, Lower0300, Lower03A0;
    hide Lower03CC, Lower0400, Lower0460, Lower1E, Lower1F00, Lower1F50, Lower1F70, Lower1FB0, Lower1FD0;
    hide Lower21, Lower24, LowerFF;
  }

  lemma Up1E(w: Code)
    requires 0x1e00 <= w <= 0x1eff
    ensures Lower(Plane1E(w)) ==
            if w == 0x1e9b then 0x1e61 else Lower1E(w)
  {
    hide Plane00, Plane0100, Plane0140, Plane0180, Plane01A0, Plane01C0, Plane01E0, Plane0200, Plane0240;
    hide Plane026C, Plane0300, Plane03A0, Plane03CC, Plane0400, Plane0460, Plane05, Plane1F00, Plane1F50;
    hide Plane1F70, Plane1FB0, Plane1FD0, Plane21, Plane24, PlaneFF, Lower00, Lower0100, Lower0140;
    hide Lower0180, Lower01A0, Lower01C0, Lower01E0, Lower0200, Lower0240, Lower026C, Lower0300, Lower03A0;
    hide Lower03CC, Lower0400, Lower0460, Lower05, Lower1F00, Lower1F50, Lower1F70, Lower1FB0, Lower1FD0;
    hide Lower21, Lower24, LowerFF;
  }

  lemma Up1F00(w: Code)
    requires 0x1f00 <= w <= 0x1f4f
    ensures Lower(Plane1F00(w)) == Lower1F00(w)
  {
    hide Plane00, Plane0100, Plane0140, Plane0180, Plane01A0, Plane01C0, Plane01E0, Plane0200, Plane0240;
    hide Plane026C, Plane0300, Plane03A0, Plane03CC, Plane0400, Plane0460, Plane05, Plane1E, Plane1F50;
    hide Plane1F70, Plane1FB0, Plane1FD0, Plane21, Plane24, PlaneFF, Lower00, Lower0100, Lower0140;
    hide Lower0180, Lower01A0, Lower01C0, Lower01E0, Lower0200, Lower0240, Lower026C, Lower0300, Lower03A0;
    hide Lower03CC, Lower0400, Lower0460, Lower05, Lower1E, Lower1F50, Lower1F70, Lower1FB0, Lower1FD0;
    hide Lower21, Lower24, LowerFF;
  }

  lemma Up1F50(w: Code)
    requires 0x1f50 <= w <= 0x1f6f
    ensures Lower(Plane1F50(w)) == Lower1F50(w)
  {
    hide Plane00, Plane0100, Plane0140, Plane0180, Plane01A0, Plane01C0, Plane01E0, Plane0200, Plane0240;
    hide Plane026C, Plane0300, Plane03A0, Plane03CC, Plane0400, Plane0460, Plane05, Plane1E, Plane1F00;
    hide Plane1F70, Plane1FB0, Plane1FD0, Plane21, Plane24, PlaneFF, Lower00, Lower0100, Lower0140;
    hide Lower0180, Lower01A0, Lower01C0, Lower01E0, Lower0200, Lower0240, Lower026C, Lower0300, Lower03A0;
    hide Lower03CC, Lower0400, Lower0460, Lower05, Lower1E, Lower1F00, Lower1F70, Lower1FB0, Lower1FD0;
    hide Lower21, Lower24, LowerFF;
  }

  lemma Up1F70(w: Code)
    requires 0x1f70 <= w <= 0x1faf
    ensures Lower(Plane1F70(w)) == Lower1F70(w)
  {
    hide Plane00, Plane0100, Plane0140, Plane0180, Plane01A0, Plane01C0, Plane01E0, Plane0200, Plane0240;
    hide Plane026C, Plane0300, Plane03A0, Plane03CC, Plane0400, Plane0460, Plane05, Plane1E, Plane1F00;
    hide Plane1F50, Plane1FB0, Plane1FD0, Plane21, Plane24, PlaneFF, Lower00, Lower0100, Lower0140;
    hide Lower0180, Lower01A0, Lower01C0, Lower01E0, Lower0200, Lower0240, Lower026C, Lower0300, Lower03A0;
    hide Lower03CC, Lower0400, Lower0460, Lower05, Lower1E, Lower1F00, Lower1F50, Lower21, Lower24, LowerFF;
  }

  lemma Up1FB0(w: Code)
    requires 0x1fb0 <= w <= 0x1fcf
    ensures Lower(Plane1FB0(w)) ==
            if w == 0x1fbe then 0x3b9 else Lower1FB0(w)
  {
    hide Plane00, Plane0100, Plane0140, Plane0180, Plane01A0, Plane01C0, Plane01E0, Plane0200, Plane0240;
    hide Plane026C, Plane0300, Plane03A0, Plane03CC, Plane0400, Plane0460, Plane05, Plane1E, Plane1F00;
    hide Plane1F50, Plane1F70, Plane1FD0, Plane21, Plane24, PlaneFF, Lower00, Lower0100, Lower0140;
    hide Lower0180, Lower01A0, Lower01C0, Lower01E0, Lower0200, Lower0240, Lower026C, Lower03A0, Lower03CC;
    hide Lower0400, Lower0460, Lower05, Lower1E, Lower1F00, Lower1F50, Lower1F70, Lower1FD0, Lower21;
    hide Lower24, LowerFF;
  }

  lemma Up1FD0(w: Code)
    requires 0x1fd0 <= w <= 0x1fff
    ensures Lower(Plane1FD0(w)) == Lower1FD0(w)
  {
    hide Plane00, Plane0100, Plane0140, Plane0180, Plane01A0, Plane01C0, Plane01E0, Plane0200, Plane0240;
    hide Plane026C, Plane0300, Plane03A0, Plane03CC, Plane0400, Plane0460, Plane05, Plane1E, Plane1F00;
    hide Plane1F50, Plane1F70, Plane1FB0, Plane21, Plane24, PlaneFF, Lower00, Lower0100, Lower0140;
    hide Lower0180, Lower01A0, Lower01C0, Lower01E0, Lower0200, Lower0240, Lower026C, Lower0300, Lower03A0;
    hide Lower03CC, Lower0400, Lower0460, Lower05, Lower1E, Lower1F00, Lower1F50, Lower1F70, Lower1FB0;
    hide Lower21, Lower24, LowerFF;
  }

  lemma Up21(w: Code)
    requires 0x2100 <= w <= 0x21ff
    ensures Lower(Plane21(w)) == Lower21(w)
  {
    hide Plane00, Plane0100, Plane0140, Plane0180, Plane01A0, Plane01C0, Plane01E0, Plane0200, Plane0240;
    hide Plane026C, Plane0300, Plane03A0, Plane03CC, Plane0400, Plane0460, Plane05, Plane1E, Plane1F00;
    hide Plane1F50, Plane1F70, Plane1FB0, Plane1FD0, Plane24, PlaneFF, Lower00, Lower0100, Lower0140;
    hide Lower0180, Lower01A0, Lower01C0, Lower01E0, Lower0200, Lower0240, Lower026C, Lower0300, Lower03A0;
    hide Lower03CC, Lower0400, Lower0460, Lower05, Lower1E, Lower1F00, Lower1F50, Lower1F70, Lower1FB0;
    hide Lower1FD0, Lower24, LowerFF;
  }

  lemma Up24(w: Code)
    requires 0x2400 <= w <= 0x24ff
    ensures Lower(Plane24(w)) == Lower24(w)
  {
    hide Plane00, Plane0100, Plane0140, Plane0180, Plane01A0, Plane01C0, Plane01E0, Plane0200, Plane0240;
    hide Plane026C, Plane0300, Plane03A0, Plane03CC, Plane0400, Plane0460, Plane05, Plane1E, Plane1F00;
    hide Plane1F50, Plane1F70, Plane1FB0, Plane1FD0, Plane21, PlaneFF, Lower00, Lower0100, Lower0140;
    hide Lower0180, Lower01A0, Lower01C0, Lower01E0, Lower0200, Lower0240, Lower026C, Lower0300, Lower03A0;
    hide Lower03CC, Lower0400, Lower0460, Lower05, Lower1E, Lower1F00, Lower1F50, Lower1F70, Lower1FB0;
    hide Lower1FD0, Lower21, LowerFF;
  }

  lemma UpFF(w: Code)
    requires 0xff00 <= w <= 0xffff
    ensures Lower(PlaneFF(w)) == LowerFF(w)
  {
    hide Plane00, Plane0100, Plane0140, Plane0180, Plane01A0, Plane01C0, Plane01E0, Plane0200, Plane0240;
    hide Plane026C, Plane0300, Plane03A0, Plane03CC, Plane0400, Plane0460, Plane05, Plane1E, Plane1F00;
    hide Plane1F50, Plane1F70, Plane1FB0, Plane1FD0, Plane21, Plane24, Lower00, Lower0100, Lower0140;
    hide Lower0180, Lower01A0, Lower01C0, Lower01E0, Lower0200, Lower0240, Lower026C, Lower0300, Lower03A0;
    hide Lower03CC, Lower0400, Lower0460, Lower05, Lower1E, Lower1F00, Lower1F50, Lower1F70, Lower1FB0;
    hide Lower1FD0, Lower21, Lower24;
  }

  lemma Title00(w: Code)
    requires 0x0 <= w <= 0xff
    ensures Lower00(w) == w || Plane00(w) == w
  {
  }

  lemma Title0100(w: Code)
    requires 0x100 <= w <= 0x13f
    ensures Lower0100(w) == w || Plane0100(w) == w
  {
  }

  lemma Title0140(w: Code)
    requires 0x140 <= w <= 0x17f
    ensures Lower0140(w) == w || Plane0140(w) == w
  {
  }

  lemma Title0180(w: Code)
    requires 0x180 <= w <= 0x19f
    ensures Lower0180(w) == w || Plane0180(w) == w
  {
  }

  lemma Title01A0(w: Code)
    requires 0x1a0 <= w <= 0x1bf
    ensures Lower01A0(w) == w || Plane01A0(w) == w
  {
  }

  lemma Title01C0(w: Code)
    requires 0x1c0 <= w <= 0x1df
    ensures Lower01C0(w) != w && Plane01C0(w) != w <==> w == 0x1c5 || w == 0x1c8 || w == 0x1cb
  {
  }

  lemma Title01E0(w: Code)
    requires 0x1e0 <= w <= 0x1ff
    ensures Lower01E0(w) != w && Plane01E0(w) != w <==> w == 0x1f2
  {
  }

  lemma Title0200(w: Code)
    requires 0x200 <= w <= 0x23f
    ensures Lower0200(w) == w || Plane0200(w) == w
  {
  }

  lemma Title0240(w: Code)
    requires 0x240 <= w <= 0x26b
    ensures Lower0240(w) == w || Plane0240(w) == w
  {
  }

  lemma Title026C(w: Code)
    requires 0x26c <= w <= 0x2ff
    ensures Lower026C(w) == w || Plane026C(w) == w
  {
  }

  lemma Title0300(w: Code)
    requires 0x300 <= w <= 0x39f
    ensures Lower0300(w) == w || Plane0300(w) == w
  {
  }

  lemma Title03A0(w: Code)
    requires 0x3a0 <= w <= 0x3cb
    ensures Lower03A0(w) == w || Plane03A0(w) == w
  {
  }

  lemma Title03CC(w: Code)
    requires 0x3cc <= w <= 0x3ff
    ensures Lower03CC(w) == w || Plane03CC(w) == w
  {
  }

  lemma Title0400(w: Code)
    requires 0x400 <= w <= 0x45f
    ensures Lower0400(w) == w || Plane0400(w) == w
  {
  }

  lemma Title0460(w: Code)
    requires 0x460 <= w <= 0x4ff
    ensures Lower0460(w) == w || Plane0460(w) == w
  {
  }

  lemma Title05(w: Code)
    requires 0x500 <= w <= 0x5ff
    ensures Lower05(w) == w || Plane05(w) == w
  {
  }

  lemma Title1E(w: Code)
    requires 0x1e00 <= w <= 0x1eff
    ensures Lower1E(w) == w || Plane1E(w) == w
  {
  }

  lemma Title1F00(w: Code)
    requires 0x1f00 <= w <= 0x1f4f
    ensures Lower1F00(w) == w || Plane1F00(w) == w
  {
  }

  lemma Title1F50(w: Code)
    requires 0x1f50 <= w <= 0x1f6f
    ensures Lower1F50(w) == w || Plane1F50(w) == w
  {
  }

  lemma Title1F70(w: Code)
    requires 0x1f70 <= w <= 0x1faf
    ensures Lower1F70(w) == w || Plane1F70(w) == w
  {
  }

  lemma Title1FB0(w: Code)
    requires 0x1fb0 <= w <= 0x1fcf
    ensures Lower1FB0(w) == w || Plane1FB0(w) == w
  {
  }

  lemma Title1FD0(w: Code)
    requires 0x1fd0 <= w <= 0x1fff
    ensures Lower1FD0(w) == w || Plane1FD0(w) == w
  {
  }

  lemma Title21(w: Code)
    requires 0x2100 <= w <= 0x21ff
    ensures Lower21(w) == w || Plane21(w) == w
  {
  }

  lemma Title24(w: Code)
    requires 0x2400 <= w <= 0x24ff
    ensures Lower24(w) == w || Plane24(w) == w
  {
  }

  lemma TitleFF(w: Code)
    requires 0xff00 <= w <= 0xffff
    ensures LowerFF(w) == w || PlaneFF(w) == w
  {
  }

  lemma LowPlanes(w: Code)
    requires w < 0x300
    ensures Lower(Upper(w)) == Plain(w)
  {
    hide Plane00, Plane0100, Plane0140, Plane0180, Plane01A0, Plane01C0, Plane01E0, Plane0200, Plane0240;
    hide Plane026C, Plane0300, Plane03A0, Plane03CC, Plane0400, Plane0460, Plane05, Plane1E, Plane1F00;
    hide Plane1F50, Plane1F70, Plane1FB0, Plane1FD0, Plane21, Plane24, PlaneFF, Lower00, Lower0100;
    hide Lower0140, Lower0180, Lower01A0, Lower01C0, Lower01E0, Lower0200, Lower0240, Lower026C, Lower0300;
    hide Lower03A0, Lower03CC, Lower0400, Lower0460, Lower05, Lower1E, Lower1F00, Lower1F50, Lower1F70;
    hide Lower1FB0, Lower1FD0, Lower21, Lower24, LowerFF;
    if 0x0 <= w <= 0xff { Up00(w); }
    else if 0x100 <= w <= 0x13f { Up0100(w); }
    else if 0x140 <= w <= 0x17f { Up0140(w); }
    else if 0x180 <= w <= 0x19f { Up0180(w); }
    else if 0x1a0 <= w <= 0x1bf { Up01A0(w); }
    else if 0x1c0 <= w <= 0x1df { Up01C0(w); }
    else if 0x1e0 <= w <= 0x1ff { Up01E0(w); }
    else if 0x200 <= w <= 0x23f { Up0200(w); }
    else if 0x240 <= w <= 0x26b { Up0240(w); }
    else if 0x26c <= w <= 0x2ff { Up026C(w); }
  }

  lemma HighPlanes(w: Code)
    requires w >= 0x300
    ensures Lower(Upper(w)) == Plain(w)
  {
    hide Plane00, Plane0100, Plane0140, Plane0180, Plane01A0, Plane01C0, Plane01E0, Plane0200, Plane0240;
    hide Plane026C, Plane0300, Plane03A0, Plane03CC, Plane0400, Plane0460, Plane05, Plane1E, Plane1F00;
    hide Plane1F50, Plane1F70, Plane1FB0, Plane1FD0, Plane21, Plane24, PlaneFF, Lower00, Lower0100;
    hide Lower0140, Lower0180, Lower01A0, Lower01C0, Lower01E0, Lower0200, Lower0240, Lower026C, Lower0300;
    hide Lower03A0, Lower03CC, Lower0400, Lower0460, Lower05, Lower1E, Lower1F00, Lower1F50, Lower1F70;
    hide Lower1FB0, Lower1FD0, Lower21, Lower24, LowerFF;
    if 0x300 <= w <= 0x39f { Up0300(w); }
    else if 0x3a0 <= w <= 0x3cb { Up03A0(w); }
    else if 0x3cc <= w <= 0x3ff { Up03CC(w); }
    else if 0x400 <= w <= 0x45f { Up0400(w); }
    else if 0x460 <= w <= 0x4ff { Up0460(w); }
    else if 0x500 <= w <= 0x5ff { Up05(w); }
    else if 0x1e00 <= w <= 0x1eff { Up1E(w); }
    else if 0x1f00 <= w <= 0x1f4f { Up1F00(w); }
    else if 0x1f50 <= w <= 0x1f6f { Up1F50(w); }
    else if 0x1f70 <= w <= 0x1faf { Up1F70(w); }
    else if 0x1fb0 <= w <= 0x1fcf { Up1FB0(w); }
    else if 0x1fd0 <= w <= 0x1fff { Up1FD0(w); }
    else if 0x2100 <= w <= 0x21ff { Up21(w); }
    else if 0x2400 <= w <= 0x24ff { Up24(w); }
    else if 0xff00 <= w <= 0xffff { UpFF(w); }
  }

  /** Upper case after lower case, for every code: upper case, but for the four signs. */
  lemma UpperAfterLower(w: Code)
    ensures Upper(Lower(w)) == Resolved(w)
  {
    hide Plane00, Plane0100, Plane0140, Plane0180, Plane01A0, Plane01C0, Plane01E0, Plane0200, Plane0240;
    hide Plane026C, Plane0300, Plane03A0, Plane03CC, Plane0400, Plane0460, Plane05, Plane1E, Plane1F00;
    hide Plane1F50, Plane1F70, Plane1FB0, Plane1FD0, Plane21, Plane24, PlaneFF, Lower00, Lower0100;
    hide Lower0140, Lower0180, Lower01A0, Lower01C0, Lower01E0, Lower0200, Lower0240, Lower026C, Lower0300;
    hide Lower03A0, Lower03CC, Lower0400, Lower0460, Lower05, Lower1E, Lower1F00, Lower1F50, Lower1F70;
    hide Lower1FB0, Lower1FD0, Lower21, Lower24, LowerFF;
    if 0x0 <= w <= 0xff { Down00(w); }
    else if 0x100 <= w <= 0x13f { Down0100(w); }
    else if 0x140 <= w <= 0x17f { Down0140(w); }
    else if 0x180 <= w <= 0x19f { Down0180(w); }
    else if 0x1a0 <= w <= 0x1bf { Down01A0(w); }
    else if 0x1c0 <= w <= 0x1df { Down01C0(w); }
    else if 0x1e0 <= w <= 0x1ff { Down01E0(w); }
    else if 0x200 <= w <= 0x23f { Down0200(w); }
    else if 0x240 <= w <= 0x26b { Down0240(w); }
    else if 0x26c <= w <= 0x2ff { Down026C(w); }
    else if 0x300 <= w <= 0x39f { Down0300(w); }
    else if 0x3a0 <= w <= 0x3cb { Down03A0(w); }
    else if 0x3cc <= w <= 0x3ff { Down03CC(w); }
    else if 0x400 <= w <= 0x45f { Down0400(w); }
    else if 0x460 <= w <= 0x4ff { Down0460(w); }
    else if 0x500 <= w <= 0x5ff { Down05(w); }
    else if 0x1e00 <= w <= 0x1eff { Down1E(w); }
    else if 0x1f00 <= w <= 0x1f4f { Down1F00(w); }
    else if 0x1f50 <= w <= 0x1f6f { Down1F50(w); }
    else if 0x1f70 <= w <= 0x1faf { Down1F70(w); }
    else if 0x1fb0 <= w <= 0x1fcf { Down1FB0(w); }
    else if 0x1fd0 <= w <= 0x1fff { Down1FD0(w); }
    else if 0x2100 <= w <= 0x21ff { Down21(w); }
    else if 0x2400 <= w <= 0x24ff { Down24(w); }
    else if 0xff00 <= w <= 0xffff { DownFF(w); }
  }

  /** Lower case after upper case, for every code: lower case, but for the variants. */
  lemma LowerAfterUpper(w: Code)
    ensures Lower(Upper(w)) == Plain(w)
  {
    hide Upper, Lower, Plain;
    if w < 0x300 { LowPlanes(w); } else { HighPlanes(w); }
  }

  /** What has a lower case is upper case already; only the digraphs in title case change both ways. */
  lemma TitleIff(w: Code)
    ensures Lower(w) != w && Upper(w) != w <==> IsTitle(w)
  {
    hide Plane00, Plane0100, Plane0140, Plane0180, Plane01A0, Plane01C0, Plane01E0, Plane0200, Plane0240;
    hide Plane026C, Plane0300, Plane03A0, Plane03CC, Plane0400, Plane0460, Plane05, Plane1E, Plane1F00;
    hide Plane1F50, Plane1F70, Plane1FB0, Plane1FD0, Plane21, Plane24, PlaneFF, Lower00, Lower0100;
    hide Lower0140, Lower0180, Lower01A0, Lower01C0, Lower01E0, Lower0200, Lower0240, Lower026C, Lower0300;
    hide Lower03A0, Lower03CC, Lower0400, Lower0460, Lower05, Lower1E, Lower1F00, Lower1F50, Lower1F70;
    hide Lower1FB0, Lower1FD0, Lower21, Lower24, LowerFF;
    if 0x0 <= w <= 0xff { Title00(w); }
    else if 0x100 <= w <= 0x13f { Title0100(w); }
    else if 0x140 <= w <= 0x17f { Title0140(w); }
    else if 0x180 <= w <= 0x19f { Title0180(w); }
    else if 0x1a0 <= w <= 0x1bf { Title01A0(w); }
    else if 0x1c0 <= w <= 0x1df { Title01C0(w); }
    else if 0x1e0 <= w <= 0x1ff { Title01E0(w); }
    else if 0x200 <= w <= 0x23f { Title0200(w); }
    else if 0x240 <= w <= 0x26b { Title0240(w); }
    else if 0x26c <= w <= 0x2ff { Title026C(w); }
    else if 0x300 <= w <= 0x39f { Title0300(w); }
    else if 0x3a0 <= w <= 0x3cb { Title03A0(w); }
    else if 0x3cc <= w <= 0x3ff { Title03CC(w); }
    else if 0x400 <= w <= 0x45f { Title0400(w); }
    else if 0x460 <= w <= 0x4ff { Title0460(w); }
    else if 0x500 <= w <= 0x5ff { Title05(w); }
    else if 0x1e00 <= w <= 0x1eff { Title1E(w); }
    else if 0x1f00 <= w <= 0x1f4f { Title1F00(w); }
    else if 0x1f50 <= w <= 0x1f6f { Title1F50(w); }
    else if 0x1f70 <= w <= 0x1faf { Title1F70(w); }
    else if 0x1fb0 <= w <= 0x1fcf { Title1FB0(w); }
    else if 0x1fd0 <= w <= 0x1fff { Title1FD0(w); }
    else if 0x2100 <= w <= 0x21ff { Title21(w); }
    else if 0x2400 <= w <= 0x24ff { Title24(w); }
    else if 0xff00 <= w <= 0xffff { TitleFF(w); }
  }

  /** Exactly where the two columns do not undo each other. */
  lemma UndoneIff(w: Code)
    ensures Upper(Lower(w)) == Upper(w) <==> !IsSign(w)
    ensures Lower(Upper(w)) == Lower(w) <==> !IsVariant(w)
  {
    UpperAfterLower(w);
    LowerAfterUpper(w);
    hide Upper, Lower;
    if IsSign(w) { SignsDiffer(w); }
    if IsVariant(w) { VariantsDiffer(w); }
  }

  lemma SignsDiffer(w: Code)
    requires IsSign(w)
    ensures Resolved(w) != Upper(w)
  {
  }

  lemma VariantsDiffer(w: Code)
    requires IsVariant(w)
    ensures Plain(w) != Lower(w)
  {
  }

  /** On ASCII exactly the letters a to z are changed, to A to Z. */
  lemma AsciiUpper(w: Code)
    requires w < 0x80
    ensures Upper(w) == if 0x61 <= w <= 0x7a then w - 0x20 else w
  {
  }
}
