/** SGR as a program on the other end sees it: what each parameter changes of the style that the next cells get. */
module Colours {
  import opened Attributes
  import opened Emulator
  import opened Shape
  import opened ControlSequences
  import opened SmallTexts

  /** CSI ps m. */
  function Sgr(ps: seq<nat>): string
    requires |ps| > 0
  {
    Sequence("", ps, 'm')
  }

  /** SGR changes the current attribute and nothing else. */
  lemma SgrRun(s: State, ps: seq<nat>)
    requires Ready(s) && |ps| > 0
    ensures var t := Run(s, Sgr(ps));
            && Ready(t) && t == s.(curAttr := t.curAttr, parser := Parser(Normal, ps, 0, "", ""))
            && AttrOk(t.curAttr) && Unpack(t.curAttr) == Restyle(Unpack(s.curAttr), ps)
  {
    hide Writing, Run, Pack, Unpack, Restyle, SetModes, ResetModes, Edit, Target, AttrOk;
    OneSequence(s, "", ps, 'm');
    CursorInside(s);
    ExecutingShape(s, "", ps);
    var u := s.(parser := Parser(Normal, ps, 0, "", ""));
    SgrStaysInRange(s.curAttr, ps);
    ExecuteShape(u, 'm', ps);
    PackUnpack(Restyle(Unpack(s.curAttr), ps));
  }

  /** The style of the cells that are written after a text. */
  ghost function StyleAfter(s: State, text: string): Style
    requires Ready(s)
  {
    Unpack(Run(s, text).curAttr)
  }

  lemma {:induction false} OneParameter(s: State, p: nat)
    requires Ready(s)
    ensures StyleAfter(s, Sgr([p])) == Apply(Unpack(s.curAttr), p)
  {
    hide Writing, Run, Unpack, Apply;
    SgrRun(s, [p]);
    assert [p][1..] == [];
    assert Restyle(Unpack(s.curAttr), [p]) == Restyle(Apply(Unpack(s.curAttr), p), []);
  }

  lemma ThreeParameters(s: State, p: nat, n: nat)
    requires Ready(s) && (p == 38 || p == 48)
    ensures StyleAfter(s, Sgr([p, 5, n])) == ApplyPalette(Unpack(s.curAttr), [p, 5, n])
  {
    hide Writing, Run, Unpack, ApplyPalette;
    SgrRun(s, [p, 5, n]);
    assert Restyle(Unpack(s.curAttr), [p, 5, n]) == Restyle(ApplyPalette(Unpack(s.curAttr), [p, 5, n]), []);
  }

  lemma LowByte(n: nat)
    ensures Color(n) as int == n % 256
  {
    var b := (n % 256) as bv8;
    assert b as int == n % 256;
    assert (b as bv9) as int == b as int;
  }

  /**
   30 to 37 and 90 to 97 set the foreground, 40 to 47 and 100 to 107 the background, to colours 0 to 7 and 8 to 15.
   */
  lemma SixteenColours(s: State, c: nat)
    requires Ready(s) && c < 8
    ensures var st := Unpack(s.curAttr);
            && StyleAfter(s, Sgr([30 + c])) == st.(fg := c as bv9)
            && StyleAfter(s, Sgr([40 + c])) == st.(bg := c as bv9)
            && StyleAfter(s, Sgr([90 + c])) == st.(fg := (c + 8) as bv9)
            && StyleAfter(s, Sgr([100 + c])) == st.(bg := (c + 8) as bv9)
  {
    hide Writing, Run, Unpack, Color, StyleAfter;
    OneParameter(s, 30 + c);
    OneParameter(s, 40 + c);
    OneParameter(s, 90 + c);
    OneParameter(s, 100 + c);
    ColourIs(c);
    ColourIs(c + 8);
  }

  lemma ColourIs(c: nat)
    requires c < 16
    ensures Color(c) == c as bv9
  {
    LowByte(c);
  }

  /** 38;5;n and 48;5;n set foreground and background to the colour of n's low byte. */
  lemma PaletteColours(s: State, n: nat)
    requires Ready(s)
    ensures var st := Unpack(s.curAttr);
            && StyleAfter(s, Sgr([38, 5, n])) == st.(fg := (n % 256) as bv9)
            && StyleAfter(s, Sgr([48, 5, n])) == st.(bg := (n % 256) as bv9)
  {
    hide Writing, Run, Unpack, StyleAfter;
    ThreeParameters(s, 38, n);
    ThreeParameters(s, 48, n);
    LowByte(n);
  }

  /** Without its number the palette group takes colour 0. */
  lemma PaletteWithoutNumber(s: State)
    requires Ready(s)
    ensures StyleAfter(s, Sgr([38, 5])) == Unpack(s.curAttr).(fg := 0)
    ensures StyleAfter(s, Sgr([48, 5])) == Unpack(s.curAttr).(bg := 0)
  {
    hide Writing, Run, Unpack;
    SgrRun(s, [38, 5]);
    SgrRun(s, [48, 5]);
    assert Restyle(Unpack(s.curAttr), [38, 5]) == Restyle(ApplyPalette(Unpack(s.curAttr), [38, 5]), []);
    assert Restyle(Unpack(s.curAttr), [48, 5]) == Restyle(ApplyPalette(Unpack(s.curAttr), [48, 5]), []);
  }

  /** So the sixteen colours are the first of the palette. */
  lemma SixteenArePalette(s: State, c: nat)
    requires Ready(s) && c < 8
    ensures StyleAfter(s, Sgr([30 + c])) == StyleAfter(s, Sgr([38, 5, c]))
    ensures StyleAfter(s, Sgr([40 + c])) == StyleAfter(s, Sgr([48, 5, c]))
    ensures StyleAfter(s, Sgr([90 + c])) == StyleAfter(s, Sgr([38, 5, c + 8]))
    ensures StyleAfter(s, Sgr([100 + c])) == StyleAfter(s, Sgr([48, 5, c + 8]))
  {
    hide Writing, Run, Unpack, StyleAfter;
    SixteenColours(s, c);
    PaletteColours(s, c);
    PaletteColours(s, c + 8);
  }

  /** 0 goes back to the default style; 1 and 22, 4 and 24, 39 and 49 each change their own field. */
  lemma FlagsAndDefaults(s: State)
    requires Ready(s)
    ensures var st := Unpack(s.curAttr);
            && StyleAfter(s, Sgr([0])) == Style(257, 256, false, false, false)
            && StyleAfter(s, Sgr([1])) == st.(bold := true) && StyleAfter(s, Sgr([22])) == st.(bold := false)
            && StyleAfter(s, Sgr([4])) == st.(underline := true) && StyleAfter(s, Sgr([24])) == st.(underline := false)
            && StyleAfter(s, Sgr([39])) == st.(fg := 257) && StyleAfter(s, Sgr([49])) == st.(bg := 256)
  {
    hide Writing, Run, Unpack, StyleAfter;
    OneParameter(s, 0);
    OneParameter(s, 1);
    OneParameter(s, 22);
    OneParameter(s, 4);
    OneParameter(s, 24);
    OneParameter(s, 39);
    OneParameter(s, 49);
  }

  /** 7 sets the inverse flag and 27 clears it, exchanging the colours if the flag changes. */
  lemma InverseExchanges(s: State)
    requires Ready(s)
    ensures var st := Unpack(s.curAttr);
            && StyleAfter(s, Sgr([7])) == (if st.inverse then st else st.(fg := st.bg, bg := st.fg, inverse := true))
            && StyleAfter(s, Sgr([27])) == (if st.inverse then st.(fg := st.bg, bg := st.fg, inverse := false) else st)
  {
    hide Writing, Run, Unpack, StyleAfter;
    OneParameter(s, 7);
    OneParameter(s, 27);
  }

  /** The parameters that mean something on their own. */
  predicate Meant(p: nat) {
    || p == 0 || p == 1 || p == 4 || p == 7 || p == 22 || p == 24 || p == 27 || p == 39 || p == 49
    || 30 <= p <= 37 || 40 <= p <= 47 || 90 <= p <= 97 || 100 <= p <= 107
  }

  /** All others change nothing. */
  lemma OthersChangeNothing(s: State, p: nat)
    requires Ready(s) && !Meant(p)
    ensures StyleAfter(s, Sgr([p])) == Unpack(s.curAttr)
  {
    hide Writing, Run, Unpack, StyleAfter;
    OneParameter(s, p);
  }

  /** A list may be sent in two sequences wherever no palette group is cut. */
  lemma SgrSplits(s: State, ps: seq<nat>, k: nat)
    requires Ready(s) && 0 < k < |ps| && GroupBoundary(ps, k)
    ensures Ready(Run(s, Sgr(ps[..k]))) && StyleAfter(s, Sgr(ps)) == StyleAfter(Run(s, Sgr(ps[..k])), Sgr(ps[k..]))
  {
    hide Writing, Run, Unpack, Restyle, GroupBoundary;
    SgrRun(s, ps);
    SgrRun(s, ps[..k]);
    SgrRun(Run(s, Sgr(ps[..k])), ps[k..]);
    RestyleConcat(Unpack(s.curAttr), ps, k);
  }
}
