/**
 Character attributes. A cell carries one packed 32-bit number: nine bits of background,
 nine bits of foreground and three flags (static/term.js:775-781). A `Style` is what the
 number stands for, and SGR is specified on styles.
 */
module Attributes {

  /** Colours 256 and 257 are the default background and the default foreground. */
  const DEF_ATTR: bv32 := (257 << 9) | 256

  /** The renderer's marker for the cursor cell, -1 as a 32-bit number. */
  const CURSOR_MARK: bv32 := 0xFFFF_FFFF

  datatype Style = Style(fg: bv9, bg: bv9, bold: bool, underline: bool, inverse: bool)

  const DEFAULT_STYLE := Style(257, 256, false, false, false)

  function Bit(b: bool, mask: bv32): bv32 {
    if b then mask else 0
  }

  function Pack(st: Style): bv32 {
    ((Bit(st.bold, 1) | Bit(st.underline, 2) | Bit(st.inverse, 4)) << 18)
    | ((st.fg as bv32) << 9)
    | (st.bg as bv32)
  }

  function Unpack(a: bv32): Style {
    Style(((a >> 9) & 0x1ff) as bv9, (a & 0x1ff) as bv9,
          (a >> 18) & 1 != 0, (a >> 18) & 2 != 0, (a >> 18) & 4 != 0)
  }

  /** Packed numbers that can occur: no bits above the flags and both colours in the palette. */
  predicate AttrOk(a: bv32) {
    a < 0x20_0000 && a & 0x1ff <= 257 && (a >> 9) & 0x1ff <= 257
  }

  predicate StyleOk(st: Style) {
    st.fg <= 257 && st.bg <= 257
  }

  /** The low eight bits of a parameter, as a colour number. */
  function Color(n: nat): (c: bv9)
    ensures c <= 255
  {
    ((n % 256) as bv8) as bv9
  }

  /** Whether the parameters begin with 38;5 or 48;5. */
  predicate PaletteAt(ps: seq<nat>) {
    |ps| >= 2 && ps[0] in {38, 48} && ps[1] == 5
  }

  /** One SGR parameter on its own. Parameters that are not listed change nothing. */
  function Apply(st: Style, p: nat): Style {
    if 30 <= p <= 37 then st.(fg := Color(p - 30))
    else if 40 <= p <= 47 then st.(bg := Color(p - 40))
    else if 90 <= p <= 97 then st.(fg := Color(p - 90 + 8))
    else if 100 <= p <= 107 then st.(bg := Color(p - 100 + 8))
    else if p == 0 then DEFAULT_STYLE
    else if p == 1 then st.(bold := true)
    else if p == 4 then st.(underline := true)
    else if p == 7 then (if st.inverse then st else st.(inverse := true, fg := st.bg, bg := st.fg))
    else if p == 27 then (if !st.inverse then st else st.(inverse := false, fg := st.bg, bg := st.fg))
    else if p == 22 then st.(bold := false)
    else if p == 24 then st.(underline := false)
    else if p == 39 then st.(fg := DEFAULT_STYLE.fg)
    else if p == 49 then st.(bg := DEFAULT_STYLE.bg)
    else st
  }

  /** 38;5;n and 48;5;n; a missing n counts as 0. */
  function ApplyPalette(st: Style, ps: seq<nat>): Style
    requires PaletteAt(ps)
  {
    var c := if |ps| > 2 then Color(ps[2]) else 0;
    if ps[0] == 38 then st.(fg := c) else st.(bg := c)
  }

  function AfterPalette(ps: seq<nat>): (rest: seq<nat>)
    requires PaletteAt(ps)
    ensures |rest| < |ps|
  {
    if |ps| > 3 then ps[3..] else []
  }

  /** A whole SGR parameter list. */
  function Restyle(st: Style, ps: seq<nat>): Style
    decreases |ps|
  {
    if ps == [] then st
    else if PaletteAt(ps) then Restyle(ApplyPalette(st, ps), AfterPalette(ps))
    else Restyle(Apply(st, ps[0]), ps[1..])
  }

  lemma PackUnpack(st: Style)
    ensures Unpack(Pack(st)) == st
    ensures Pack(st) < 0x20_0000
    ensures StyleOk(st) <==> AttrOk(Pack(st))
  {
  }

  lemma UnpackPack(a: bv32)
    requires a < 0x20_0000
    ensures Pack(Unpack(a)) == a
    ensures AttrOk(a) <==> StyleOk(Unpack(a))
    ensures a != CURSOR_MARK
  {
  }

  lemma ApplyStaysInPalette(st: Style, p: nat)
    requires StyleOk(st)
    ensures StyleOk(Apply(st, p))
  {
  }

  /** No parameter list leaves the palette. */
  lemma {:induction false} RestyleStaysInPalette(st: Style, ps: seq<nat>)
    requires StyleOk(st)
    ensures StyleOk(Restyle(st, ps))
    decreases |ps|
  {
    if ps == [] {
    } else if PaletteAt(ps) {
      RestyleStaysInPalette(ApplyPalette(st, ps), AfterPalette(ps));
    } else {
      ApplyStaysInPalette(st, ps[0]);
      RestyleStaysInPalette(Apply(st, ps[0]), ps[1..]);
    }
  }

  /** So the packed number SGR leaves is in range again and never the cursor marker. */
  lemma SgrStaysInRange(a: bv32, ps: seq<nat>)
    requires AttrOk(a)
    ensures AttrOk(Pack(Restyle(Unpack(a), ps)))
    ensures Pack(Restyle(Unpack(a), ps)) != CURSOR_MARK
  {
    UnpackPack(a);
    RestyleStaysInPalette(Unpack(a), ps);
    PackUnpack(Restyle(Unpack(a), ps));
  }

  /** Whether position k of a parameter list is the start of a group rather than inside 38;5;n or 48;5;n. */
  predicate GroupBoundary(ps: seq<nat>, k: nat)
    decreases |ps|
  {
    if k == 0 then true
    else if k > |ps| then false
    else if PaletteAt(ps) then k >= 3 && GroupBoundary(AfterPalette(ps), k - 3)
    else GroupBoundary(ps[1..], k - 1)
  }

  /** SGR lists can be cut in two sequences wherever no palette group is cut. */
  lemma {:induction false} RestyleConcat(st: Style, ps: seq<nat>, k: nat)
    requires k <= |ps| && GroupBoundary(ps, k)
    ensures Restyle(st, ps) == Restyle(Restyle(st, ps[..k]), ps[k..])
    decreases |ps|
  {
    if k == 0 {
      assert ps[..0] == [] && ps[0..] == ps;
    } else if PaletteAt(ps) {
      var rest := AfterPalette(ps);
      RestyleConcat(ApplyPalette(st, ps), rest, k - 3);
      assert ps[..k][3..] == rest[..k - 3] && ps[k..] == rest[k - 3..];
      assert PaletteAt(ps[..k]) && ApplyPalette(st, ps[..k]) == ApplyPalette(st, ps);
    } else {
      RestyleConcat(Apply(st, ps[0]), ps[1..], k - 1);
      assert ps[..k][1..] == ps[1..][..k - 1] && ps[k..] == ps[1..][k - 1..];
      assert ps[..k][0] == ps[0] && (k > 1 ==> ps[..k][1] == ps[1]);
    }
  }

  /** Inverse on and off again is the identity exactly on styles that are not inverse. */
  lemma InverseTwice(st: Style)
    ensures Restyle(st, [7, 27]) == st <==> !st.inverse
    ensures Restyle(st, [27, 7]) == st <==> st.inverse
  {
    forall a, b: nat | a in {7, 27} && b in {7, 27}
      ensures Restyle(st, [a, b]) == Apply(Apply(st, a), b)
    {
      assert [a, b][1..] == [b] && [b][1..] == [];
      assert Restyle(Apply(st, a), [b]) == Apply(Apply(st, a), b);
    }
  }
}
