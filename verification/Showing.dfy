/**
 What a page shows, in the fields of the styles its cells stand for. Nothing here speaks of bits: a cell's number is
 `Pack` of a style, and the page's HTML is read back with `Decode`.
 */
module Showing {
  import opened Options
  import opened Attributes
  import opened Rendering
  import opened Decoding
  import opened Emulator
  import opened Damage

  // ---------------------------------------------------------------- numbers and styles

  /** The number of a style: background, then foreground times 2^9, then the three flags from 2^18 on. */
  lemma PackedNumber(st: Style)
    ensures Pack(st) == (st.bg as bv32) + (st.fg as bv32) * 0x200
                        + (if st.bold then 0x4_0000 else 0) + (if st.underline then 0x8_0000 else 0)
                        + (if st.inverse then 0x10_0000 else 0)
  {
  }

  /** The default number is the style of colours 257 on 256 without flags, and no other. */
  lemma DefaultStyle(st: Style)
    ensures Pack(st) == DEF_ATTR <==> st == Style(257, 256, false, false, false)
  {
    PackUnpack(st);
    PackUnpack(Style(257, 256, false, false, false));
    assert Pack(Style(257, 256, false, false, false)) == DEF_ATTR;
  }

  /** The parts of a packed style. */
  lemma PackedParts(st: Style)
    ensures Background(Pack(st)) == st.bg as bv32 && Foreground(Pack(st)) == st.fg as bv32
    ensures IsBold(Pack(st)) == st.bold && IsUnderlined(Pack(st)) == st.underline
  {
  }

  // ---------------------------------------------------------------- one cell

  /** The foreground shown: bold raises the dark colours by eight. */
  function Brightened(st: Style): bv32 {
    if st.bold && st.fg < 8 then (st.fg as bv32) + 8 else st.fg as bv32
  }

  lemma ColoursExist(p: Palette, st: Style)
    requires PaletteOk(p) && StyleOk(st)
    ensures st.bg as bv32 in p.colors && Brightened(st) in p.colors
  {
    assert st.bg as bv32 <= 257 && Brightened(st) <= 257;
  }

  /** The declarations of a style, from its own fields. */
  function StyleDeclarations(p: Palette, st: Style): string
    requires PaletteOk(p) && StyleOk(st)
  {
    ColoursExist(p, st);
    (if st.bold && !p.brokenBold then "font-weight:bold;" else "")
    + (if st.underline then "text-decoration:underline;" else "")
    + (if st.bg != 256 then "background-color:" + p.colors[st.bg as bv32] + ";" else "")
    + (if Brightened(st) != 257 then "color:" + p.colors[Brightened(st)] + ";" else "")
  }

  function StyleTag(p: Palette, st: Style): string
    requires PaletteOk(p) && StyleOk(st)
  {
    "span style=\"" + StyleDeclarations(p, st) + "\""
  }

  lemma ShownColours(st: Style)
    ensures Background(Pack(st)) == st.bg as bv32 && ShownForeground(Pack(st)) == Brightened(st)
    ensures st.bg as bv32 == 256 <==> st.bg == 256
  {
    hide Pack, Background, Foreground, IsBold;
    PackedParts(st);
    SmallColour(st.fg);
  }

  lemma SmallColour(c: bv9)
    ensures c as bv32 < 8 <==> c < 8
  {
  }

  lemma DeclaredTexts(color: string)
    ensures BoldText() == "font-weight:bold;" && UnderlineText() == "text-decoration:underline;"
    ensures BackgroundText(color) == "background-color:" + color + ";"
    ensures ForegroundText(color) == "color:" + color + ";"
  {
  }

  lemma DeclaredStyle(p: Palette, st: Style)
    requires PaletteOk(p) && StyleOk(st)
    ensures AttrOk(Pack(st)) && Declarations(p, Pack(st)) == StyleDeclarations(p, st)
  {
    hide PaletteOk, AttrOk, StyleOk, Pack, Background, ShownForeground, Brightened, IsBold, IsUnderlined,
      BoldText, UnderlineText, BackgroundText, ForegroundText;
    PackUnpack(st);
    PackedParts(st);
    ShownColours(st);
    ColoursExist(p, st);
    ColorsAreKnown(p, Pack(st));
    DeclaredTexts(p.colors[st.bg as bv32]);
    DeclaredTexts(p.colors[Brightened(st)]);
  }

  lemma StyledTagIs(p: Palette, st: Style)
    requires PaletteOk(p) && StyleOk(st)
    ensures AttrOk(Pack(st)) && Tag(p, Pack(st)) == StyleTag(p, st)
  {
    hide PaletteOk, AttrOk, Pack, Declarations, StyleDeclarations;
    PackUnpack(st);
    UnpackPack(Pack(st));
    DeclaredStyle(p, st);
  }

  const NO_BREAK_SPACE: char := '\U{A0}'

  /** An entity or a character, as a reader of HTML takes it. */
  function Entity(glyph: string): char {
    if glyph == "&amp;" then '&'
    else if glyph == "&lt;" then '<'
    else if glyph == "&gt;" then '>'
    else if |glyph| == 1 then glyph[0]
    else NO_BREAK_SPACE
  }

  /** Every character reads as itself, but blanks and controls as a space that does not break. */
  lemma GlyphReads(ch: char)
    ensures Entity(Glyph(ch)) == if ch <= ' ' then NO_BREAK_SPACE else ch
    ensures ch <= ' ' ==> Glyph(ch) == "&nbsp;"
  {
  }

  /** What a cell shows: the tag around it and the character in it. */
  ghost predicate Displays(p: Palette, shown: Shown, c: Cell, cursor: bool)
    requires PaletteOk(p) && CellOk(c)
  {
    UnpackPack(c.attr);
    var st := Unpack(c.attr);
    && shown.tag == (if cursor then Some("span class=\"reverse-video\"")
                     else if st == Style(257, 256, false, false, false) then None
                     else Some(StyleTag(p, st)))
    && Entity(shown.glyph) == (if c.ch <= ' ' then NO_BREAK_SPACE else c.ch)
  }

  lemma CellDisplays(p: Palette, c: Cell, cursor: bool)
    requires PaletteOk(p) && CellOk(c)
    ensures Displays(p, Look(p, if cursor then Cell(CURSOR_MARK, c.ch) else c), c, cursor)
  {
    hide PaletteOk, Pack, Unpack, StyleTag, Glyph, Declarations;
    UnpackPack(c.attr);
    GlyphReads(c.ch);
    var st := Unpack(c.attr);
    DefaultStyle(st);
    StyledTagIs(p, st);
  }

  // ---------------------------------------------------------------- rows and pages

  /** A rendered line reads back as its cells, each in the fields of its own style, the cursor's cell highlighted. */
  lemma LineDisplays(p: Palette, line: Line, cols: nat, x: int)
    requires PaletteOk(p) && LineOk(line, cols)
    ensures var html := Decode(RenderLine(p, line, cols, x));
            && html.Some? && |html.value| == cols
            && forall i | 0 <= i < cols :: CellOk(line[i]) && Displays(p, html.value[i], line[i], i == x)
  {
    hide PaletteOk, Look, Displays, RenderLine, Decode, CellOk;
    RenderedLineDecodes(p, line, cols, x);
    var html := Decode(RenderLine(p, line, cols, x));
    forall i | 0 <= i < cols
      ensures CellOk(line[i]) && Displays(p, html.value[i], line[i], i == x)
    {
      CellDisplays(p, line[i], i == x);
    }
  }

  /**
   Whether the cell in row k and column i is highlighted: the cursor is on, not hidden, and the view is at the bottom.
   */
  predicate Highlighted(s: State, k: int, i: int) {
    s.cursorState && !s.cursorHidden && s.buf.ydisp == s.buf.ybase && k == s.buf.y && i == s.buf.x
  }

  lemma RowDisplays(s: State, k: int)
    requires Renderable(s) && 0 <= k < s.rows
    ensures 0 <= s.buf.ydisp + k < |s.buf.lines| && LineOk(s.buf.lines[s.buf.ydisp + k], s.cols)
    ensures var html, line := Decode(RenderRow(s, k)), s.buf.lines[s.buf.ydisp + k];
            && html.Some? && |html.value| == s.cols
            && forall i | 0 <= i < s.cols ::
                 CellOk(line[i]) && Displays(s.env.palette, html.value[i], line[i], Highlighted(s, k, i))
  {
    hide PaletteOk, Displays, RenderLine, Decode, LineOk, CellOk;
    var line := s.buf.lines[k + s.buf.ydisp];
    LineDisplays(s.env.palette, line, s.cols, CursorColumn(s, k));
    forall i | 0 <= i < s.cols
      ensures (i == CursorColumn(s, k)) == Highlighted(s, k, i)
    {
    }
  }

  /** So a page that is right shows, row by row and column by column, the cells of the lines in view. */
  lemma PageDisplays(s: State, k: int)
    requires Renderable(s) && InSync(s) && 0 <= k < s.rows
    ensures 0 <= s.buf.ydisp + k < |s.buf.lines| && |s.paint.children| == s.rows
    ensures var html, line := Decode(s.paint.children[k]), s.buf.lines[s.buf.ydisp + k];
            && LineOk(line, s.cols) && html.Some? && |html.value| == s.cols
            && forall i | 0 <= i < s.cols ::
                 CellOk(line[i]) && Displays(s.env.palette, html.value[i], line[i], Highlighted(s, k, i))
  {
    hide PaletteOk, Displays, RenderRow, Decode, LineOk, CellOk, Highlighted;
    RowDisplays(s, k);
  }
}
