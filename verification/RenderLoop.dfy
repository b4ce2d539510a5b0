/** The loop of `refresh` over the cells of one line (static/term.js:823-899). */
module RenderLoop {
  import opened Attributes
  import opened Rendering

  /** Bold turns a dark colour into its bright counterpart. */
  method BrightColor(data: bv32) returns (fgColor: bv32)
    ensures fgColor == ShownForeground(data)
  {
    fgColor := Foreground(data);
    if IsBold(data) && fgColor < 8 {
      fgColor := fgColor + 8;
    }
  }

  /** The declarations of a style attribute, appended one by one. */
  method StyleText(p: Palette, data: bv32) returns (out: string)
    requires PaletteOk(p) && AttrOk(data)
    ensures out == Declarations(p, data)
  {
    hide PaletteOk, AttrOk, IsBold, IsUnderlined, Background, ShownForeground, BoldText, UnderlineText, BackgroundText,
      ForegroundText;
    ColorsAreKnown(p, data);
    out := "";
    var bgColor := Background(data);
    var fgColor := BrightColor(data);
    if IsBold(data) && !p.brokenBold {
      out := out + BoldText();
    }
    if IsUnderlined(data) {
      out := out + UnderlineText();
    }
    if bgColor != 256 {
      out := out + BackgroundText(p.colors[bgColor]);
    }
    if fgColor != 257 {
      out := out + ForegroundText(p.colors[fgColor]);
    }
  }

  /** What is still to be rendered from cell i on. */
  function Rest(p: Palette, cells: seq<Cell>, i: nat, was: bv32): string
    requires PaletteOk(p) && CellsOk(cells) && i <= |cells|
  {
    RenderFrom(p, cells[i..], was)
  }

  lemma RestStep(p: Palette, cells: seq<Cell>, i: nat, was: bv32, out: string)
    requires PaletteOk(p) && CellsOk(cells) && i < |cells|
    ensures MarkOk(cells[i].attr)
    ensures out + Rest(p, cells, i, was)
         == out + Transition(p, was, cells[i].attr) + Glyph(cells[i].ch) + Rest(p, cells, i + 1, cells[i].attr)
  {
    hide MarkOk, Transition, Glyph;
    assert cells[i..][1..] == cells[i + 1..];
    var t, g, r := Transition(p, was, cells[i].attr), Glyph(cells[i].ch), Rest(p, cells, i + 1, cells[i].attr);
    assert out + (t + g + r) == out + t + g + r;
  }

  lemma RestEnds(p: Palette, cells: seq<Cell>, was: bv32)
    requires PaletteOk(p) && CellsOk(cells)
    ensures Rest(p, cells, |cells|, was) == Closing(was)
    ensures Rest(p, cells, 0, was) == RenderFrom(p, cells, was)
  {
    hide MarkOk, Transition, Glyph;
    assert cells[|cells|..] == [] && cells[0..] == cells;
  }

  lemma MarkedIsOk(line: Line, cols: nat, x: int)
    requires LineOk(line, cols)
    ensures CellsOk(Marked(line, cols, x))
  {
  }

  method RenderCells(p: Palette, line: Line, cols: nat, x: int) returns (out: string)
    requires PaletteOk(p) && LineOk(line, cols)
    ensures out == RenderLine(p, line, cols, x)
  {
    hide PaletteOk, LineOk, AttrOk, MarkOk, CellsOk, Glyph, Rest, RenderFrom, Transition, Marked, ClosingTag;
    LineIsWide(line, cols);
    ghost var cells := Marked(line, cols, x);
    MarkedIsOk(line, cols, x);
    out := "";
    var attr := DEF_ATTR;
    var i := 0;
    RestEnds(p, cells, attr);
    assert out + Rest(p, cells, 0, attr) == RenderLine(p, line, cols, x);
    while i < cols
      invariant 0 <= i <= cols
      invariant out + Rest(p, cells, i, attr) == RenderLine(p, line, cols, x)
    {
      var data := line[i].attr;
      var ch := line[i].ch;
      if i == x {
        data := CURSOR_MARK;
      }
      MarkedAt(line, cols, x, i);
      RestStep(p, cells, i, attr, out);
      var change := SpanChange(p, attr, data);
      out := out + change;
      out := out + Glyph(ch);
      attr := data;
      i := i + 1;
    }
    RestEnds(p, cells, attr);
    if attr != DEF_ATTR {
      out := out + ClosingTag();
    }
  }

  lemma MarkedAt(line: Line, cols: nat, x: int, i: nat)
    requires cols <= |line| && i < cols
    ensures Marked(line, cols, x)[i] == if i == x then Cell(CURSOR_MARK, line[i].ch) else line[i]
  {
  }

  /** What is appended when the attribute changes. */
  method SpanChange(p: Palette, attr: bv32, data: bv32) returns (out: string)
    requires PaletteOk(p) && MarkOk(data)
    ensures out == Transition(p, attr, data)
  {
    hide PaletteOk, AttrOk, MarkOk, Declarations, CursorTag, StyledTag, ClosingTag;
    MarkIsAttr(data);
    out := "";
    if data != attr {
      if attr != DEF_ATTR {
        out := out + ClosingTag();
      }
      if data != DEF_ATTR {
        if data == CURSOR_MARK {
          out := out + ("<" + CursorTag() + ">");
        } else {
          var declarations := StyleText(p, data);
          out := out + ("<" + StyledTag(declarations) + ">");
        }
      }
    }
  }

  lemma LineIsWide(line: Line, cols: int)
    requires LineOk(line, cols)
    ensures cols <= |line|
  {
  }

  lemma MarkIsAttr(data: bv32)
    requires MarkOk(data)
    ensures data != CURSOR_MARK ==> AttrOk(data)
  {
  }
}
