/**
  The upper-case column of the connector's Unicode case tables, one function
  a plane, cut into blocks where there are many rules. A plane without a table maps every character to itself.
  */
module CaseTable {
  import opened Utf8

  function Plane00(w: Code): Code {
    if 0x61 <= w <= 0x7a || 0xe0 <= w <= 0xf6 || 0xf8 <= w <= 0xfe then w - 0x20
    else if w == 0xb5 then w + 0x2e7
    else if w == 0xff then w + 0x79
    else w
  }

  function Plane0100(w: Code): Code {
    if (0x101 <= w <= 0x12f && w & 1 == 1) || (0x133 <= w <= 0x137 && w & 1 == 1) ||
       (0x13a <= w <= 0x13e && w & 1 == 0)
    then w - 0x1
    else if w == 0x131 then w - 0xe8
    else w
  }

  function Plane0140(w: Code): Code {
    if (0x140 <= w <= 0x148 && w & 1 == 0) || (0x14b <= w <= 0x177 && w & 1 == 1) ||
       (0x17a <= w <= 0x17e && w & 1 == 0)
    then w - 0x1
    else if w == 0x17f then w - 0x12c
    else w
  }

  function Plane0180(w: Code): Code {
    if (0x183 <= w <= 0x185 && w & 1 == 1) || w == 0x188 || w == 0x18c || w == 0x192 || w == 0x199 then w - 0x1
    else if w == 0x195 then w + 0x61
    else w
  }

  function Plane01A0(w: Code): Code {
    if (0x1a1 <= w <= 0x1a5 && w & 1 == 1) || w == 0x1a8 || w == 0x1ad || w == 0x1b0 ||
       (0x1b4 <= w <= 0x1b6 && w & 1 == 0) || w == 0x1b9 || w == 0x1bd
    then w - 0x1
    else if w == 0x1bf then w + 0x38
    else w
  }

  function Plane01C0(w: Code): Code {
    if w == 0x1c5 || w == 0x1c8 || w == 0x1cb || (0x1ce <= w <= 0x1dc && w & 1 == 0) || w == 0x1df then w - 0x1
    else if w == 0x1c6 || w == 0x1c9 || w == 0x1cc then w - 0x2
    else if w == 0x1dd then w - 0x4f
    else w
  }

  function Plane01E0(w: Code): Code {
    if (0x1e1 <= w <= 0x1ef && w & 1 == 1) || w == 0x1f2 || w == 0x1f5 || (0x1f9 <= w <= 0x1ff && w & 1 == 1)
    then w - 0x1
    else if w == 0x1f3 then w - 0x2
    else w
  }

  function Plane01(w: Code): Code {
    if w <= 0x13f then Plane0100(w)
    else if w <= 0x17f then Plane0140(w)
    else if w <= 0x19f then Plane0180(w)
    else if w <= 0x1bf then Plane01A0(w)
    else if w <= 0x1df then Plane01C0(w)
    else Plane01E0(w)
  }

  function Plane0200(w: Code): Code {
    if (0x201 <= w <= 0x21f && w & 1 == 1) || (0x223 <= w <= 0x233 && w & 1 == 1) then w - 0x1
    else w
  }

  function Plane0240(w: Code): Code {
    if w == 0x253 then w - 0xd2
    else if w == 0x254 then w - 0xce
    else if 0x256 <= w <= 0x257 || w == 0x260 then w - 0xcd
    else if w == 0x259 then w - 0xca
    else if w == 0x25b then w - 0xcb
    else if w == 0x263 then w - 0xcf
    else if w == 0x268 then w - 0xd1
    else if w == 0x269 then w - 0xd3
    else w
  }

  function Plane026C(w: Code): Code {
    if w == 0x26f then w - 0xd3
    else if w == 0x272 then w - 0xd5
    else if w == 0x275 then w - 0xd6
    else if w == 0x280 || w == 0x283 || w == 0x288 then w - 0xda
    else if 0x28a <= w <= 0x28b then w - 0xd9
    else if w == 0x292 then w - 0xdb
    else w
  }

  function Plane02(w: Code): Code {
    if w <= 0x23f then Plane0200(w)
    else if w <= 0x26b then Plane0240(w)
    else Plane026C(w)
  }

  function Plane0300(w: Code): Code {
    if w == 0x345 then w + 0x54
    else w
  }

  function Plane03A0(w: Code): Code {
    if w == 0x3ac then w - 0x26
    else if 0x3ad <= w <= 0x3af then w - 0x25
    else if 0x3b1 <= w <= 0x3c1 || 0x3c3 <= w <= 0x3cb then w - 0x20
    else if w == 0x3c2 then w - 0x1f
    else w
  }

  function Plane03CC(w: Code): Code {
    if w == 0x3cc then w - 0x40
    else if 0x3cd <= w <= 0x3ce then w - 0x3f
    else if w == 0x3d0 then w - 0x3e
    else if w == 0x3d1 then w - 0x39
    else if w == 0x3d5 then w - 0x2f
    else if w == 0x3d6 then w - 0x36
    else if (0x3db <= w <= 0x3ef && w & 1 == 1) then w - 0x1
    else if w == 0x3f0 then w - 0x56
    else if w == 0x3f1 then w - 0x50
    else if w == 0x3f2 then w - 0x4f
    else w
  }

  function Plane03(w: Code): Code {
    if w <= 0x39f then Plane0300(w)
    else if w <= 0x3cb then Plane03A0(w)
    else Plane03CC(w)
  }

  function Plane0400(w: Code): Code {
    if 0x430 <= w <= 0x44f then w - 0x20
    else if 0x450 <= w <= 0x45f then w - 0x50
    else w
  }

  function Plane0460(w: Code): Code {
    if (0x461 <= w <= 0x481 && w & 1 == 1) || (0x48d <= w <= 0x4bf && w & 1 == 1) ||
       (0x4c2 <= w <= 0x4c4 && w & 1 == 0) || w == 0x4c8 || w == 0x4cc || (0x4d1 <= w <= 0x4f5 && w & 1 == 1) ||
       w == 0x4f9
    then w - 0x1
    else w
  }

  function Plane04(w: Code): Code {
    if w <= 0x45f then Plane0400(w)
    else Plane0460(w)
  }

  function Plane05(w: Code): Code {
    if 0x561 <= w <= 0x586 then w - 0x30
    else w
  }

  function Plane1E(w: Code): Code {
    if (0x1e01 <= w <= 0x1e95 && w & 1 == 1) || (0x1ea1 <= w <= 0x1ef9 && w & 1 == 1) then w - 0x1
    else if w == 0x1e9b then w - 0x3b
    else w
  }

  function Plane1F00(w: Code): Code {
    if 0x1f00 <= w <= 0x1f07 || 0x1f10 <= w <= 0x1f15 || 0x1f20 <= w <= 0x1f27 || 0x1f30 <= w <= 0x1f37 ||
       0x1f40 <= w <= 0x1f45
    then w + 0x8
    else w
  }

  function Plane1F50(w: Code): Code {
    if (0x1f51 <= w <= 0x1f57 && w & 1 == 1) || 0x1f60 <= w <= 0x1f67 then w + 0x8
    else w
  }

  function Plane1F70(w: Code): Code {
    if 0x1f70 <= w <= 0x1f71 then w + 0x4a
    else if 0x1f72 <= w <= 0x1f75 then w + 0x56
    else if 0x1f76 <= w <= 0x1f77 then w + 0x64
    else if 0x1f78 <= w <= 0x1f79 then w + 0x80
    else if 0x1f7a <= w <= 0x1f7b then w + 0x70
    else if 0x1f7c <= w <= 0x1f7d then w + 0x7e
    else if 0x1f80 <= w <= 0x1f87 || 0x1f90 <= w <= 0x1f97 || 0x1fa0 <= w <= 0x1fa7 then w + 0x8
    else w
  }

  function Plane1FB0(w: Code): Code {
    if 0x1fb0 <= w <= 0x1fb1 then w + 0x8
    else if w == 0x1fb3 || w == 0x1fc3 then w + 0x9
    else if w == 0x1fbe then w - 0x1c25
    else w
  }

  function Plane1FD0(w: Code): Code {
    if 0x1fd0 <= w <= 0x1fd1 || 0x1fe0 <= w <= 0x1fe1 then w + 0x8
    else if w == 0x1fe5 then w + 0x7
    else if w == 0x1ff3 then w + 0x9
    else w
  }

  function Plane1F(w: Code): Code {
    if w <= 0x1f4f then Plane1F00(w)
    else if w <= 0x1f6f then Plane1F50(w)
    else if w <= 0x1faf then Plane1F70(w)
    else if w <= 0x1fcf then Plane1FB0(w)
    else Plane1FD0(w)
  }

  function Plane21(w: Code): Code {
    if 0x2170 <= w <= 0x217f then w - 0x10
    else w
  }

  function Plane24(w: Code): Code {
    if 0x24d0 <= w <= 0x24e9 then w - 0x1a
    else w
  }

  function PlaneFF(w: Code): Code {
    if 0xff41 <= w <= 0xff5a then w - 0x20
    else w
  }

  /** uni_plane[plane] ? uni_plane[plane][wc & 0xFF].toupper : wc */
  function Upper(w: Code): Code {
    if w >> 8 == 0x0 then Plane00(w)
    else if w >> 8 == 0x1 then Plane01(w)
    else if w >> 8 == 0x2 then Plane02(w)
    else if w >> 8 == 0x3 then Plane03(w)
    else if w >> 8 == 0x4 then Plane04(w)
    else if w >> 8 == 0x5 then Plane05(w)
    else if w >> 8 == 0x1e then Plane1E(w)
    else if w >> 8 == 0x1f then Plane1F(w)
    else if w >> 8 == 0x21 then Plane21(w)
    else if w >> 8 == 0x24 then Plane24(w)
    else if w >> 8 == 0xff then PlaneFF(w)
    else w
  }

  // What a block does to its own characters: the result is upper case already,
  // it is NUL only for NUL, and it needs no more octets than before.

  lemma Facts00(w: Code)
    requires 0x0 <= w <= 0xff
    ensures Upper(Plane00(w)) == Plane00(w) && (Plane00(w) == 0 <==> w == 0)
    ensures Plane00(w) < 0x800
    ensures w < 0x80 ==> Plane00(w) < 0x80
  {
    hide Plane0100, Plane0180, Plane01A0, Plane01C0, Plane01E0, Plane0200, Plane0240, Plane026C, Plane03A0;
    hide Plane03CC, Plane0400, Plane0460, Plane05, Plane1E, Plane1F00, Plane1F50, Plane1F70, Plane1FB0;
    hide Plane1FD0, Plane21, Plane24, PlaneFF;
  }

  lemma Facts0100(w: Code)
    requires 0x100 <= w <= 0x13f
    ensures Upper(Plane0100(w)) == Plane0100(w) && (Plane0100(w) == 0 <==> w == 0)
    ensures Plane0100(w) < 0x800
  {
    hide Plane0140, Plane0180, Plane01A0, Plane01C0, Plane01E0, Plane0200, Plane0240, Plane026C, Plane0300;
    hide Plane03A0, Plane03CC, Plane0400, Plane0460, Plane05, Plane1E, Plane1F00, Plane1F50, Plane1F70;
    hide Plane1FB0, Plane1FD0, Plane21, Plane24, PlaneFF;
  }

  lemma Facts0140(w: Code)
    requires 0x140 <= w <= 0x17f
    ensures Upper(Plane0140(w)) == Plane0140(w) && (Plane0140(w) == 0 <==> w == 0)
    ensures Plane0140(w) < 0x800
  {
    hide Plane0180, Plane01A0, Plane01C0, Plane01E0, Plane0200, Plane0240, Plane026C, Plane0300, Plane03A0;
    hide Plane03CC, Plane0400, Plane0460, Plane05, Plane1E, Plane1F00, Plane1F50, Plane1F70, Plane1FB0;
    hide Plane1FD0, Plane21, Plane24, PlaneFF;
  }

  lemma Facts0180(w: Code)
    requires 0x180 <= w <= 0x19f
    ensures Upper(Plane0180(w)) == Plane0180(w) && (Plane0180(w) == 0 <==> w == 0)
    ensures Plane0180(w) < 0x800
  {
    hide Plane00, Plane0100, Plane0140, Plane01A0, Plane01C0, Plane0200, Plane0240, Plane026C, Plane0300;
    hide Plane03A0, Plane03CC, Plane0400, Plane0460, Plane05, Plane1E, Plane1F00, Plane1F50, Plane1F70;
    hide Plane1FB0, Plane1FD0, Plane21, Plane24, PlaneFF;
  }

  lemma Facts01A0(w: Code)
    requires 0x1a0 <= w <= 0x1bf
    ensures Upper(Plane01A0(w)) == Plane01A0(w) && (Plane01A0(w) == 0 <==> w == 0)
    ensures Plane01A0(w) < 0x800
  {
    hide Plane00, Plane0100, Plane0140, Plane0180, Plane01C0, Plane0200, Plane0240, Plane026C, Plane0300;
    hide Plane03A0, Plane03CC, Plane0400, Plane0460, Plane05, Plane1E, Plane1F00, Plane1F50, Plane1F70;
    hide Plane1FB0, Plane1FD0, Plane21, Plane24, PlaneFF;
  }

  lemma Facts01C0(w: Code)
    requires 0x1c0 <= w <= 0x1df
    ensures Upper(Plane01C0(w)) == Plane01C0(w) && (Plane01C0(w) == 0 <==> w == 0)
    ensures Plane01C0(w) < 0x800
  {
    hide Plane00, Plane0100, Plane0140, Plane01A0, Plane01E0, Plane0200, Plane0240, Plane026C, Plane0300;
    hide Plane03A0, Plane03CC, Plane0400, Plane0460, Plane05, Plane1E, Plane1F00, Plane1F50, Plane1F70;
    hide Plane1FB0, Plane1FD0, Plane21, Plane24, PlaneFF;
  }

  lemma Facts01E0(w: Code)
    requires 0x1e0 <= w <= 0x1ff
    ensures Upper(Plane01E0(w)) == Plane01E0(w) && (Plane01E0(w) == 0 <==> w == 0)
    ensures Plane01E0(w) < 0x800
  {
    hide Plane00, Plane0100, Plane0140, Plane0180, Plane01A0, Plane01C0, Plane0200, Plane0240, Plane026C;
    hide Plane0300, Plane03A0, Plane03CC, Plane0400, Plane0460, Plane05, Plane1E, Plane1F00, Plane1F50;
    hide Plane1F70, Plane1FB0, Plane1FD0, Plane21, Plane24, PlaneFF;
  }

  lemma Facts0200(w: Code)
    requires 0x200 <= w <= 0x23f
    ensures Upper(Plane0200(w)) == Plane0200(w) && (Plane0200(w) == 0 <==> w == 0)
    ensures Plane0200(w) < 0x800
  {
    hide Plane00, Plane0100, Plane0140, Plane0180, Plane01A0, Plane01C0, Plane01E0, Plane0240, Plane026C;
    hide Plane0300, Plane03A0, Plane03CC, Plane0400, Plane0460, Plane05, Plane1E, Plane1F00, Plane1F50;
    hide Plane1F70, Plane1FB0, Plane1FD0, Plane21, Plane24, PlaneFF;
  }

  lemma Facts0240(w: Code)
    requires 0x240 <= w <= 0x26b
    ensures Upper(Plane0240(w)) == Plane0240(w) && (Plane0240(w) == 0 <==> w == 0)
    ensures Plane0240(w) < 0x800
  {
    hide Plane00, Plane0100, Plane0140, Plane01A0, Plane01C0, Plane01E0, Plane0200, Plane026C, Plane0300;
    hide Plane03A0, Plane03CC, Plane0400, Plane0460, Plane05, Plane1E, Plane1F00, Plane1F50, Plane1F70;
    hide Plane1FB0, Plane1FD0, Plane21, Plane24, PlaneFF;
  }

  lemma Facts026C(w: Code)
    requires 0x26c <= w <= 0x2ff
    ensures Upper(Plane026C(w)) == Plane026C(w) && (Plane026C(w) == 0 <==> w == 0)
    ensures Plane026C(w) < 0x800
  {
    hide Plane00, Plane0100, Plane0140, Plane01C0, Plane01E0, Plane0200, Plane0240, Plane0300, Plane03A0;
    hide Plane03CC, Plane0400, Plane0460, Plane05, Plane1E, Plane1F00, Plane1F50, Plane1F70, Plane1FB0;
    hide Plane1FD0, Plane21, Plane24, PlaneFF;
  }

  lemma Facts0300(w: Code)
    requires 0x300 <= w <= 0x39f
    ensures Upper(Plane0300(w)) == Plane0300(w) && (Plane0300(w) == 0 <==> w == 0)
    ensures Plane0300(w) < 0x800
  {
    hide Plane00, Plane0100, Plane0140, Plane0180, Plane01A0, Plane01C0, Plane01E0, Plane0200, Plane0240;
    hide Plane026C, Plane03A0, Plane03CC, Plane0400, Plane0460, Plane05, Plane1E, Plane1F00, Plane1F50;
    hide Plane1F70, Plane1FB0, Plane1FD0, Plane21, Plane24, PlaneFF;
  }

  lemma Facts03A0(w: Code)
    requires 0x3a0 <= w <= 0x3cb
    ensures Upper(Plane03A0(w)) == Plane03A0(w) && (Plane03A0(w) == 0 <==> w == 0)
    ensures Plane03A0(w) < 0x800
  {
    hide Plane00, Plane0100, Plane0140, Plane0180, Plane01A0, Plane01C0, Plane01E0, Plane0200, Plane0240;
    hide Plane026C, Plane03CC, Plane0400, Plane0460, Plane05, Plane1E, Plane1F00, Plane1F50, Plane1F70;
    hide Plane1FB0, Plane1FD0, Plane21, Plane24, PlaneFF;
  }

  lemma Facts03CC(w: Code)
    requires 0x3cc <= w <= 0x3ff
    ensures Upper(Plane03CC(w)) == Plane03CC(w) && (Plane03CC(w) == 0 <==> w == 0)
    ensures Plane03CC(w) < 0x800
  {
    hide Plane00, Plane0100, Plane0140, Plane0180, Plane01A0, Plane01C0, Plane01E0, Plane0200, Plane0240;
    hide Plane026C, Plane0400, Plane0460, Plane05, Plane1E, Plane1F00, Plane1F50, Plane1F70, Plane1FB0;
    hide Plane1FD0, Plane21, Plane24, PlaneFF;
  }

  lemma Facts0400(w: Code)
    requires 0x400 <= w <= 0x45f
    ensures Upper(Plane0400(w)) == Plane0400(w) && (Plane0400(w) == 0 <==> w == 0)
    ensures Plane0400(w) < 0x800
  {
    hide Plane00, Plane0100, Plane0140, Plane0180, Plane01A0, Plane01C0, Plane01E0, Plane0200, Plane0240;
    hide Plane026C, Plane0300, Plane03A0, Plane03CC, Plane0460, Plane05, Plane1E, Plane1F00, Plane1F50;
    hide Plane1F70, Plane1FB0, Plane1FD0, Plane21, Plane24, PlaneFF;
  }

  lemma Facts0460(w: Code)
    requires 0x460 <= w <= 0x4ff
    ensures Upper(Plane0460(w)) == Plane0460(w) && (Plane0460(w) == 0 <==> w == 0)
    ensures Plane0460(w) < 0x800
  {
    hide Plane00, Plane0100, Plane0140, Plane0180, Plane01A0, Plane01C0, Plane01E0, Plane0200, Plane0240;
    hide Plane026C, Plane0300, Plane03A0, Plane03CC, Plane0400, Plane05, Plane1E, Plane1F00, Plane1F50;
    hide Plane1F70, Plane1FB0, Plane1FD0, Plane21, Plane24, PlaneFF;
  }

  lemma Facts05(w: Code)
    requires 0x500 <= w <= 0x5ff
    ensures Upper(Plane05(w)) == Plane05(w) && (Plane05(w) == 0 <==> w == 0)
    ensures Plane05(w) < 0x800
  {
    hide Plane00, Plane0100, Plane0140, Plane0180, Plane01A0, Plane01C0, Plane01E0, Plane0200, Plane0240;
    hide Plane026C, Plane0300, Plane03A0, Plane03CC, Plane0400, Plane0460, Plane1E, Plane1F00, Plane1F50;
    hide Plane1F70, Plane1FB0, Plane1FD0, Plane21, Plane24, PlaneFF;
  }

  lemma Facts1E(w: Code)
    requires 0x1e00 <= w <= 0x1eff
    ensures Upper(Plane1E(w)) == Plane1E(w) && (Plane1E(w) == 0 <==> w == 0)
  {
    hide Plane00, Plane0100, Plane0140, Plane0180, Plane01A0, Plane01C0, Plane01E0, Plane0200, Plane0240;
    hide Plane026C, Plane0300, Plane03A0, Plane03CC, Plane0400, Plane0460, Plane05, Plane1F00, Plane1F50;
    hide Plane1F70, Plane1FB0, Plane1FD0, Plane21, Plane24, PlaneFF;
  }

  lemma Facts1F00(w: Code)
    requires 0x1f00 <= w <= 0x1f4f
    ensures Upper(Plane1F00(w)) == Plane1F00(w) && (Plane1F00(w) == 0 <==> w == 0)
  {
    hide Plane00, Plane0100, Plane0140, Plane0180, Plane01A0, Plane01C0, Plane01E0, Plane0200, Plane0240;
    hide Plane026C, Plane0300, Plane03A0, Plane03CC, Plane0400, Plane0460, Plane05, Plane1E, Plane1F50;
    hide Plane1F70, Plane1FB0, Plane1FD0, Plane21, Plane24, PlaneFF;
  }

  lemma Facts1F50(w: Code)
    requires 0x1f50 <= w <= 0x1f6f
    ensures Upper(Plane1F50(w)) == Plane1F50(w) && (Plane1F50(w) == 0 <==> w == 0)
  {
    hide Plane00, Plane0100, Plane0140, Plane0180, Plane01A0, Plane01C0, Plane01E0, Plane0200, Plane0240;
    hide Plane026C, Plane0300, Plane03A0, Plane03CC, Plane0400, Plane0460, Plane05, Plane1E, Plane1F00;
    hide Plane1F70, Plane1FB0, Plane1FD0, Plane21, Plane24, PlaneFF;
  }

  lemma Facts1F70(w: Code)
    requires 0x1f70 <= w <= 0x1faf
    ensures Upper(Plane1F70(w)) == Plane1F70(w) && (Plane1F70(w) == 0 <==> w == 0)
  {
    hide Plane00, Plane0100, Plane0140, Plane0180, Plane01A0, Plane01C0, Plane01E0, Plane0200, Plane0240;
    hide Plane026C, Plane0300, Plane03A0, Plane03CC, Plane0400, Plane0460, Plane05, Plane1E, Plane1F00;
    hide Plane1F50, Plane21, Plane24, PlaneFF;
  }

  lemma Facts1FB0(w: Code)
    requires 0x1fb0 <= w <= 0x1fcf
    ensures Upper(Plane1FB0(w)) == Plane1FB0(w) && (Plane1FB0(w) == 0 <==> w == 0)
  {
    hide Plane00, Plane0100, Plane0140, Plane0180, Plane01A0, Plane01C0, Plane01E0, Plane0200, Plane0240;
    hide Plane026C, Plane03A0, Plane03CC, Plane0400, Plane0460, Plane05, Plane1E, Plane1F00, Plane1F50;
    hide Plane1F70, Plane1FD0, Plane21, Plane24, PlaneFF;
  }

  lemma Facts1FD0(w: Code)
    requires 0x1fd0 <= w <= 0x1fff
    ensures Upper(Plane1FD0(w)) == Plane1FD0(w) && (Plane1FD0(w) == 0 <==> w == 0)
  {
    hide Plane00, Plane0100, Plane0140, Plane0180, Plane01A0, Plane01C0, Plane01E0, Plane0200, Plane0240;
    hide Plane026C, Plane0300, Plane03A0, Plane03CC, Plane0400, Plane0460, Plane05, Plane1E, Plane1F00;
    hide Plane1F50, Plane1F70, Plane1FB0, Plane21, Plane24, PlaneFF;
  }

  lemma Facts21(w: Code)
    requires 0x2100 <= w <= 0x21ff
    ensures Upper(Plane21(w)) == Plane21(w) && (Plane21(w) == 0 <==> w == 0)
  {
    hide Plane00, Plane0100, Plane0140, Plane0180, Plane01A0, Plane01C0, Plane01E0, Plane0200, Plane0240;
    hide Plane026C, Plane0300, Plane03A0, Plane03CC, Plane0400, Plane0460, Plane05, Plane1E, Plane1F00;
    hide Plane1F50, Plane1F70, Plane1FB0, Plane1FD0, Plane24, PlaneFF;
  }

  lemma Facts24(w: Code)
    requires 0x2400 <= w <= 0x24ff
    ensures Upper(Plane24(w)) == Plane24(w) && (Plane24(w) == 0 <==> w == 0)
  {
    hide Plane00, Plane0100, Plane0140, Plane0180, Plane01A0, Plane01C0, Plane01E0, Plane0200, Plane0240;
    hide Plane026C, Plane0300, Plane03A0, Plane03CC, Plane0400, Plane0460, Plane05, Plane1E, Plane1F00;
    hide Plane1F50, Plane1F70, Plane1FB0, Plane1FD0, Plane21, PlaneFF;
  }

  lemma FactsFF(w: Code)
    requires 0xff00 <= w <= 0xffff
    ensures Upper(PlaneFF(w)) == PlaneFF(w) && (PlaneFF(w) == 0 <==> w == 0)
  {
    hide Plane00, Plane0100, Plane0140, Plane0180, Plane01A0, Plane01C0, Plane01E0, Plane0200, Plane0240;
    hide Plane026C, Plane0300, Plane03A0, Plane03CC, Plane0400, Plane0460, Plane05, Plane1E, Plane1F00;
    hide Plane1F50, Plane1F70, Plane1FB0, Plane1FD0, Plane21, Plane24;
  }

  /**
    Upper-casing twice is upper-casing once, no character gets longer in
    UTF-8, and only NUL becomes NUL: facts about the whole table.
    */
  lemma UpperFacts(w: Code)
    ensures Upper(Upper(w)) == Upper(w)
    ensures w < 0x80 ==> Upper(w) < 0x80
    ensures w < 0x800 ==> Upper(w) < 0x800
    ensures Upper(w) == 0 <==> w == 0
  {
    hide Plane00, Plane0100, Plane0140, Plane0180, Plane01A0, Plane01C0, Plane01E0, Plane0200, Plane0240;
    hide Plane026C, Plane0300, Plane03A0, Plane03CC, Plane0400, Plane0460, Plane05, Plane1E, Plane1F00;
    hide Plane1F50, Plane1F70, Plane1FB0, Plane1FD0, Plane21, Plane24, PlaneFF;
    if 0x0 <= w <= 0xff { Facts00(w); }
    else if 0x100 <= w <= 0x13f { Facts0100(w); }
    else if 0x140 <= w <= 0x17f { Facts0140(w); }
    else if 0x180 <= w <= 0x19f { Facts0180(w); }
    else if 0x1a0 <= w <= 0x1bf { Facts01A0(w); }
    else if 0x1c0 <= w <= 0x1df { Facts01C0(w); }
    else if 0x1e0 <= w <= 0x1ff { Facts01E0(w); }
    else if 0x200 <= w <= 0x23f { Facts0200(w); }
    else if 0x240 <= w <= 0x26b { Facts0240(w); }
    else if 0x26c <= w <= 0x2ff { Facts026C(w); }
    else if 0x300 <= w <= 0x39f { Facts0300(w); }
    else if 0x3a0 <= w <= 0x3cb { Facts03A0(w); }
    else if 0x3cc <= w <= 0x3ff { Facts03CC(w); }
    else if 0x400 <= w <= 0x45f { Facts0400(w); }
    else if 0x460 <= w <= 0x4ff { Facts0460(w); }
    else if 0x500 <= w <= 0x5ff { Facts05(w); }
    else if 0x1e00 <= w <= 0x1eff { Facts1E(w); }
    else if 0x1f00 <= w <= 0x1f4f { Facts1F00(w); }
    else if 0x1f50 <= w <= 0x1f6f { Facts1F50(w); }
    else if 0x1f70 <= w <= 0x1faf { Facts1F70(w); }
    else if 0x1fb0 <= w <= 0x1fcf { Facts1FB0(w); }
    else if 0x1fd0 <= w <= 0x1fff { Facts1FD0(w); }
    else if 0x2100 <= w <= 0x21ff { Facts21(w); }
    else if 0x2400 <= w <= 0x24ff { Facts24(w); }
    else if 0xff00 <= w <= 0xffff { FactsFF(w); }
  }
}
