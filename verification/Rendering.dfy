/**
 One line of the screen as HTML (static/term.js:794-903): a new span opens where the
 attribute changes, and the cursor cell carries the marker -1 instead of its attribute.
 */
module Rendering {
  import opened Attributes

  datatype Cell = Cell(attr: bv32, ch: char)

  type Line = seq<Cell>

  /** What the renderer takes from its surroundings: the palette, and whether the browser's bold is broken. */
  datatype Palette = Palette(colors: map<bv32, string>, brokenBold: bool)

  /** All 258 palette entries exist and none of them can end a tag. */
  ghost predicate PaletteOk(p: Palette) {
    forall c: bv32 | c <= 257 :: c in p.colors && '>' !in p.colors[c]
  }

  predicate CellOk(c: Cell) {
    AttrOk(c.attr)
  }

  ghost predicate LineOk(line: Line, cols: int) {
    |line| >= cols && forall i | 0 <= i < |line| :: CellOk(line[i])
  }

  predicate MarkOk(data: bv32) {
    data == CURSOR_MARK || AttrOk(data)
  }

  ghost predicate CellsOk(cells: seq<Cell>) {
    forall i | 0 <= i < |cells| :: MarkOk(cells[i].attr)
  }

  /** The first cols cells, with the marker in column x (no column when x is -1). */
  function Marked(line: Line, cols: nat, x: int): (cells: seq<Cell>)
    requires cols <= |line|
    ensures |cells| == cols
  {
    seq(cols, i requires 0 <= i < cols => if i == x then Cell(CURSOR_MARK, line[i].ch) else line[i])
  }

  function Background(data: bv32): bv32 {
    data & 0x1ff
  }

  function Foreground(data: bv32): bv32 {
    (data >> 9) & 0x1ff
  }

  predicate IsBold(data: bv32) {
    (data >> 18) & 1 != 0
  }

  predicate IsUnderlined(data: bv32) {
    (data >> 18) & 2 != 0
  }

  /** Bold dark colours show as their bright counterparts. */
  function ShownForeground(data: bv32): bv32 {
    if IsBold(data) && Foreground(data) < 8 then Foreground(data) + 8 else Foreground(data)
  }

  lemma ColorsAreKnown(p: Palette, data: bv32)
    requires PaletteOk(p) && AttrOk(data)
    ensures Background(data) in p.colors && ShownForeground(data) in p.colors
    ensures '>' !in p.colors[Background(data)] && '>' !in p.colors[ShownForeground(data)]
  {
    assert Background(data) <= 257 && ShownForeground(data) <= 257;
  }

  function BoldText(): string {
    "font-weight:bold;"
  }

  function UnderlineText(): string {
    "text-decoration:underline;"
  }

  function BackgroundText(color: string): string {
    "background-color:" + color + ";"
  }

  function ForegroundText(color: string): string {
    "color:" + color + ";"
  }

  function Declarations(p: Palette, data: bv32): string
    requires PaletteOk(p) && AttrOk(data)
  {
    ColorsAreKnown(p, data);
    (if IsBold(data) && !p.brokenBold then BoldText() else "")
    + (if IsUnderlined(data) then UnderlineText() else "")
    + (if Background(data) != 256 then BackgroundText(p.colors[Background(data)]) else "")
    + (if ShownForeground(data) != 257 then ForegroundText(p.colors[ShownForeground(data)]) else "")
  }

  function CursorTag(): string {
    "span class=\"reverse-video\""
  }

  function StyledTag(declarations: string): string {
    "span style=\"" + declarations + "\""
  }

  /** The inside of the tag that opens a span, without its angle brackets. */
  function Tag(p: Palette, data: bv32): string
    requires PaletteOk(p) && MarkOk(data)
  {
    if data == CURSOR_MARK then CursorTag() else StyledTag(Declarations(p, data))
  }

  function ClosingTag(): string {
    "</span>"
  }

  function Closing(was: bv32): string {
    if was != DEF_ATTR then ClosingTag() else ""
  }

  function Opening(p: Palette, data: bv32): string
    requires PaletteOk(p) && MarkOk(data)
  {
    if data != DEF_ATTR then "<" + Tag(p, data) + ">" else ""
  }

  /** What is written between a cell with attribute was and a cell with attribute data. */
  function Transition(p: Palette, was: bv32, data: bv32): string
    requires PaletteOk(p) && MarkOk(data)
  {
    if data == was then ""
    else Closing(was) + Opening(p, data)
  }

  function Glyph(ch: char): string {
    if ch == '&' then "&amp;"
    else if ch == '<' then "&lt;"
    else if ch == '>' then "&gt;"
    else if ch <= ' ' then "&nbsp;"
    else [ch]
  }

  /** The rest of a line after a cell with attribute was. */
  function RenderFrom(p: Palette, cells: seq<Cell>, was: bv32): string
    requires PaletteOk(p) && CellsOk(cells)
  {
    if cells == [] then Closing(was)
    else Transition(p, was, cells[0].attr) + Glyph(cells[0].ch) + RenderFrom(p, cells[1..], cells[0].attr)
  }

  function RenderLine(p: Palette, line: Line, cols: nat, x: int): string
    requires PaletteOk(p) && LineOk(line, cols)
  {
    RenderFrom(p, Marked(line, cols, x), DEF_ATTR)
  }
}

/** Reading the HTML back. */
module Decoding {
  import opened Options
  import opened Attributes
  import opened Rendering

  datatype Token = Open(tag: string) | Close | Text(glyph: string)

  /** The length of the longest prefix without c. */
  function Before(html: string, c: char): (n: nat)
    ensures n <= |html| && c !in html[..n] && (n < |html| ==> html[n] == c)
  {
    if html == [] || html[0] == c then 0
    else
      var n := 1 + Before(html[1..], c);
      assert html[..n] == [html[0]] + html[1..][..n - 1];
      n
  }

  /** A tag runs to the next '>', an entity to the next ';', and any other character stands for itself. */
  function Lex(html: string): seq<Token>
    decreases |html|
  {
    if html == [] then []
    else if html[0] == '<' then
      var n := Before(html, '>');
      var tag := html[1..n];
      [if tag == "/span" then Close else Open(tag)] + (if n < |html| then Lex(html[n + 1..]) else [])
    else if html[0] == '&' then
      var n := Before(html, ';');
      if n < |html| then [Text(html[..n + 1])] + Lex(html[n + 1..]) else [Text(html)]
    else [Text(html[..1])] + Lex(html[1..])
  }

  /** A displayed cell: the tag of the span around it, if any, and its text. */
  datatype Shown = Shown(tag: Option<string>, glyph: string)

  /**
   The cells of a token stream. It fails on a span inside a span, on a stray closing tag
   and on a span left open.
   */
  function Cells(tokens: seq<Token>, open: Option<string>): Option<seq<Shown>> {
    if tokens == [] then (if open.None? then Some([]) else None)
    else match tokens[0]
      case Open(tag) => if open.None? then Cells(tokens[1..], Some(tag)) else None
      case Close => if open.Some? then Cells(tokens[1..], None) else None
      case Text(g) =>
        match Cells(tokens[1..], open)
        case None => None
        case Some(rest) => Some([Shown(open, g)] + rest)
  }

  function Decode(html: string): Option<seq<Shown>> {
    Cells(Lex(html), None)
  }

  /** How one cell looks on its own. */
  function Look(p: Palette, c: Cell): Shown
    requires PaletteOk(p) && MarkOk(c.attr)
  {
    Shown(if c.attr == DEF_ATTR then None else Some(Tag(p, c.attr)), Glyph(c.ch))
  }

  lemma DefaultIsInRange()
    ensures AttrOk(DEF_ATTR) && DEF_ATTR != CURSOR_MARK
  {
  }

  lemma TextsHaveNoEnd(color: string)
    requires '>' !in color
    ensures '>' !in BoldText() && '>' !in UnderlineText()
    ensures '>' !in BackgroundText(color) && '>' !in ForegroundText(color)
  {
  }

  lemma DeclarationsHaveNoEnd(p: Palette, data: bv32)
    requires PaletteOk(p) && AttrOk(data)
    ensures '>' !in Declarations(p, data)
  {
    hide PaletteOk, AttrOk, IsBold, IsUnderlined, Background, ShownForeground;
    hide BoldText, UnderlineText, BackgroundText, ForegroundText;
    ColorsAreKnown(p, data);
    TextsHaveNoEnd(p.colors[Background(data)]);
    TextsHaveNoEnd(p.colors[ShownForeground(data)]);
  }

  lemma TagHasNoEnd(p: Palette, data: bv32)
    requires PaletteOk(p) && MarkOk(data)
    ensures '>' !in Tag(p, data) && Tag(p, data) != "/span"
  {
    hide AttrOk, Declarations;
    if data != CURSOR_MARK {
      DeclarationsHaveNoEnd(p, data);
    }
    assert Tag(p, data)[0] == 's';
  }

  lemma {:induction false} BeforeFirst(s: string, c: char, rest: string)
    requires c !in s
    ensures Before(s + [c] + rest, c) == |s|
  {
    if s == [] {
      assert s + [c] + rest == [c] + rest;
    } else {
      assert (s + [c] + rest)[1..] == s[1..] + [c] + rest;
      BeforeFirst(s[1..], c, rest);
    }
  }

  lemma LexTag(tag: string, rest: string)
    requires '>' !in tag
    ensures Lex("<" + tag + ">" + rest) == [if tag == "/span" then Close else Open(tag)] + Lex(rest)
  {
    var s := "<" + tag;
    var html := s + ['>'] + rest;
    BeforeFirst(s, '>', rest);
    assert html == "<" + tag + ">" + rest;
    assert html[1..|s|] == tag && html[|s| + 1..] == rest;
  }

  lemma LexGlyph(ch: char, rest: string)
    ensures Lex(Glyph(ch) + rest) == [Text(Glyph(ch))] + Lex(rest)
  {
    var g := Glyph(ch);
    var html := g + rest;
    if g[0] == '&' {
      var s := g[..|g| - 1];
      assert html == s + [';'] + rest;
      BeforeFirst(s, ';', rest);
      assert html[..|s| + 1] == g && html[|s| + 1..] == rest;
    } else {
      assert html[..1] == g && html[1..] == rest;
    }
  }

  /** The span a cell with this attribute sits in. */
  function Span(p: Palette, data: bv32): Option<string>
    requires PaletteOk(p) && MarkOk(data)
  {
    if data == DEF_ATTR then None else Some(Tag(p, data))
  }

  lemma LexClosing(p: Palette, was: bv32, rest: string)
    requires PaletteOk(p) && MarkOk(was)
    ensures Cells(Lex(Closing(was) + rest), Span(p, was)) == Cells(Lex(rest), None)
  {
    if was != DEF_ATTR {
      LexTag("/span", rest);
      assert "<" + "/span" + ">" + rest == "</span>" + rest;
      assert ([Close] + Lex(rest))[1..] == Lex(rest);
    } else {
      assert Closing(was) + rest == rest;
    }
  }

  lemma LexOpening(p: Palette, data: bv32, rest: string)
    requires PaletteOk(p) && MarkOk(data)
    ensures Cells(Lex(Opening(p, data) + rest), None) == Cells(Lex(rest), Span(p, data))
  {
    if data != DEF_ATTR {
      TagHasNoEnd(p, data);
      var tag := Tag(p, data);
      LexTag(tag, rest);
      assert ([Open(tag)] + Lex(rest))[1..] == Lex(rest);
    } else {
      assert Opening(p, data) + rest == rest;
    }
  }

  lemma CellsText(g: string, tokens: seq<Token>, open: Option<string>)
    requires Cells(tokens, open).Some?
    ensures Cells([Text(g)] + tokens, open) == Some([Shown(open, g)] + Cells(tokens, open).value)
  {
    assert ([Text(g)] + tokens)[1..] == tokens;
  }

  /** The cells of a line, each on its own. */
  function Looks(p: Palette, cells: seq<Cell>): (r: seq<Shown>)
    requires PaletteOk(p) && CellsOk(cells)
    ensures |r| == |cells| && forall i | 0 <= i < |cells| :: r[i] == Look(p, cells[i])
  {
    hide PaletteOk, MarkOk, Look;
    if cells == [] then [] else [Look(p, cells[0])] + Looks(p, cells[1..])
  }

  /** Transitions close the old span before they open the new one, so spans never nest. */
  lemma LexTransition(p: Palette, was: bv32, data: bv32, text: string)
    requires PaletteOk(p) && MarkOk(was) && MarkOk(data)
    ensures Cells(Lex(Transition(p, was, data) + text), Span(p, was)) == Cells(Lex(text), Span(p, data))
  {
    hide PaletteOk, MarkOk, Lex, Cells, Closing, Opening, Span;
    if data == was {
      assert Transition(p, was, data) + text == text;
    } else {
      LexOpening(p, data, text);
      LexClosing(p, was, Opening(p, data) + text);
      assert Transition(p, was, data) + text == Closing(was) + (Opening(p, data) + text);
    }
  }

  lemma DecodeCell(p: Palette, was: bv32, c: Cell, tail: string)
    requires PaletteOk(p) && MarkOk(was) && MarkOk(c.attr)
    requires Cells(Lex(tail), Span(p, c.attr)).Some?
    ensures Cells(Lex(Transition(p, was, c.attr) + (Glyph(c.ch) + tail)), Span(p, was))
         == Some([Look(p, c)] + Cells(Lex(tail), Span(p, c.attr)).value)
  {
    LexTransition(p, was, c.attr, Glyph(c.ch) + tail);
    LexGlyph(c.ch, tail);
    CellsText(Glyph(c.ch), Lex(tail), Span(p, c.attr));
  }

  lemma {:induction false} DecodeFrom(p: Palette, cells: seq<Cell>, was: bv32)
    requires PaletteOk(p) && CellsOk(cells) && MarkOk(was)
    ensures Cells(Lex(RenderFrom(p, cells, was)), Span(p, was)) == Some(Looks(p, cells))
    decreases |cells|
  {
    if cells == [] {
      LexClosing(p, was, "");
      assert Closing(was) + "" == Closing(was);
    } else {
      var tail := RenderFrom(p, cells[1..], cells[0].attr);
      DecodeFrom(p, cells[1..], cells[0].attr);
      DecodeCell(p, was, cells[0], tail);
      var t, g := Transition(p, was, cells[0].attr), Glyph(cells[0].ch);
      assert t + g + tail == t + (g + tail);
    }
  }

  /**
   Rendered lines decode to their cells: whatever the run lengths, the HTML is well nested with at
   most one span open, and column by column it shows the cell's own style and character, with the
   cursor style in column x.
   */
  lemma RenderedLineDecodes(p: Palette, line: Line, cols: nat, x: int)
    requires PaletteOk(p) && LineOk(line, cols)
    ensures Decode(RenderLine(p, line, cols, x)).Some?
    ensures var shown := Decode(RenderLine(p, line, cols, x)).value;
            && |shown| == cols
            && (forall i | 0 <= i < cols ::
                  shown[i] == Look(p, if i == x then Cell(CURSOR_MARK, line[i].ch) else line[i]))
  {
    DefaultIsInRange();
    DecodeFrom(p, Marked(line, cols, x), DEF_ATTR);
  }
}
