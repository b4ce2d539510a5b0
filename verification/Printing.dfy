/** Where printed characters go, and what they leave alone. */
module Printing {
  import opened Shifts
  import opened Attributes
  import opened Rendering
  import opened Screen
  import opened Emulator
  import opened Shape
  import opened Damage
  import opened ControlSequences

  /** The cell that a character becomes. */
  function Printed(s: State, ch: char): Cell {
    Cell(s.curAttr, if ch in s.charsets.active then s.charsets.active[ch] else ch)
  }

  lemma PrintOne(s: State, ch: char, rest: string)
    requires Ready(s) && ch >= ' '
    ensures Ready(Print(s, ch)) && Run(s, [ch] + rest) == Run(Print(s, ch), rest)
  {
    hide Writing, Run, Print;
    PrintShape(s, ch);
    PrintKeeps(s, ch);
    assert StepNormal(s, ch) == Print(s, ch) by {
      assert !IsLineFeed(ch);
    }
    RunStep(s, ch, rest);
  }

  lemma PrintKeeps(s: State, ch: char)
    requires Writing(s)
    ensures Print(s, ch) == s.(buf := Print(s, ch).buf, paint := Print(s, ch).paint)
  {
    hide Writing, Wrap, PutCell;
    WrapIsOk(s);
    CursorInside(Wrap(s));
  }

  lemma WideRow(b: Buffer, cols: int, rows: int, scrollback: int, k: int)
    requires BufferOk(b, cols, rows, scrollback) && 0 <= k < rows
    ensures 0 <= b.ybase + k < |b.lines| && cols <= |b.lines[b.ybase + k]|
  {
    assert LineOk(b.lines[b.ybase + k], cols);
  }

  /** A cell written into one line. */
  function WithCell(lines: seq<Line>, i: nat, x: nat, c: Cell): seq<Line>
    requires i < |lines| && x < |lines[i]|
  {
    lines[i := lines[i][x := c]]
  }

  /** Left of the last column the character takes the cursor's cell, the cursor moves on, and nothing else changes. */
  lemma PrintsInPlace(s: State, ch: char)
    requires Ready(s) && ch >= ' ' && s.buf.x < s.cols
    ensures 0 <= s.buf.ybase + s.buf.y < |s.buf.lines| && 0 <= s.buf.x < |s.buf.lines[s.buf.ybase + s.buf.y]|
    ensures var t := Run(s, [ch]);
            && Ready(t) && t == s.(buf := t.buf, paint := t.paint)
            && t.buf == s.buf.(x := s.buf.x + 1,
                               lines := WithCell(s.buf.lines, s.buf.ybase + s.buf.y, s.buf.x, Printed(s, ch)))
  {
    hide Writing, Run, BufferOk;
    CursorInside(s);
    WideRow(s.buf, s.cols, s.rows, s.env.scrollback, s.buf.y);
    PrintOne(s, ch, "");
    assert [ch] + "" == [ch];
    RunEnds(Print(s, ch));
    PrintKeeps(s, ch);
  }

  /** With a wrap pending above the bottom margin it takes the first column of the next row. */
  lemma PrintsInNextRow(s: State, ch: char)
    requires Ready(s) && ch >= ' ' && s.buf.x >= s.cols && s.buf.y < s.buf.scrollBottom
    ensures 0 <= s.buf.ybase + s.buf.y + 1 < |s.buf.lines| && 0 < |s.buf.lines[s.buf.ybase + s.buf.y + 1]|
    ensures var t := Run(s, [ch]);
            && Ready(t) && t == s.(buf := t.buf, paint := t.paint)
            && t.buf == s.buf.(x := 1, y := s.buf.y + 1,
                               lines := WithCell(s.buf.lines, s.buf.ybase + s.buf.y + 1, 0, Printed(s, ch)))
  {
    hide Writing, Run, BufferOk, IndexLine;
    CursorInside(s);
    WideRow(s.buf, s.cols, s.rows, s.env.scrollback, s.buf.y + 1);
    PrintOne(s, ch, "");
    assert [ch] + "" == [ch];
    RunEnds(Print(s, ch));
    PrintKeeps(s, ch);
    HomeColumnShape(s);
    WrapIsOk(s);
    IndexLineIs(To(s, 0, s.buf.y));
  }

  /** Row k of the screen after its region has moved up by one row. */
  function MovedUp(s: State, k: int): Line
    requires 0 <= k < s.rows && 0 <= s.cols && 0 <= s.buf.ybase && |s.buf.lines| == s.buf.ybase + s.rows
    requires 0 <= s.buf.scrollTop <= s.buf.scrollBottom < s.rows
  {
    if k < s.buf.scrollTop || s.buf.scrollBottom < k then s.buf.lines[s.buf.ybase + k]
    else if k == s.buf.scrollBottom then BlankLine(s.cols, DEF_ATTR)
    else s.buf.lines[s.buf.ybase + k + 1]
  }

  /**
   With a wrap pending at or below the bottom margin the region moves up by one row first, and the character takes the
   first column of the cursor's row. Without a top margin the old first row becomes the newest scrollback row;
   scrollback that reaches the limit is cut to half of it.
   */
  lemma PrintsAfterScroll(s: State, ch: char)
    requires Ready(s) && ch >= ' ' && s.buf.x >= s.cols && s.buf.y >= s.buf.scrollBottom
    ensures 0 <= s.buf.ybase && |s.buf.lines| == s.buf.ybase + s.rows && 1 <= s.cols
    ensures 0 <= s.buf.scrollTop <= s.buf.scrollBottom < s.rows
    ensures var t := Run(s, [ch]);
            && Ready(t) && t == s.(buf := t.buf, paint := t.paint)
            && t.buf == s.buf.(x := 1, lines := t.buf.lines, ybase := t.buf.ybase, ydisp := t.buf.ybase)
            && 0 <= t.buf.ybase && |t.buf.lines| == t.buf.ybase + s.rows
            && HistoryMoves(s, t.buf)
            && forall k | 0 <= k < s.rows ::
                 && 0 < |MovedUp(s, k)|
                 && VisibleLine(t.buf, k)
                    == if k == s.buf.y then MovedUp(s, k)[0 := Printed(s, ch)] else MovedUp(s, k)
  {
    hide Writing, Run, BufferOk, Wrap, PutCell, MovedUp, HistoryMoves;
    ScreenInside(s);
    PrintOne(s, ch, "");
    assert [ch] + "" == [ch];
    RunEnds(Print(s, ch));
    PrintKeeps(s, ch);
    WrapsAfterScroll(s);
    var w := Wrap(s);
    CursorInside(w);
    ScreenInside(w);
    PutRow(w.buf, w.cols, w.rows, w.env.scrollback, Printed(s, ch), w.buf.y);
    SameHistory(s, w.buf, Print(s, ch).buf);
    forall k | 0 <= k < s.rows
      ensures 0 < |MovedUp(s, k)|
      ensures VisibleLine(Print(s, ch).buf, k)
           == if k == s.buf.y then MovedUp(s, k)[0 := Printed(s, ch)] else MovedUp(s, k)
    {
      WideRow(w.buf, w.cols, w.rows, w.env.scrollback, k);
      PutRow(w.buf, w.cols, w.rows, w.env.scrollback, Printed(s, ch), k);
    }
  }

  /** What the wrap leaves there before the character is put. */
  lemma WrapsAfterScroll(s: State)
    requires Writing(s) && s.buf.x >= s.cols && s.buf.y >= s.buf.scrollBottom
    ensures 0 <= s.buf.ybase && |s.buf.lines| == s.buf.ybase + s.rows && 1 <= s.cols
    ensures 0 <= s.buf.scrollTop <= s.buf.scrollBottom < s.rows
    ensures var w := Wrap(s);
            && Writing(w) && w == s.(buf := w.buf, paint := w.paint)
            && w.buf == s.buf.(x := 0, lines := w.buf.lines, ybase := w.buf.ybase, ydisp := w.buf.ybase)
            && 0 <= w.buf.ybase && |w.buf.lines| == w.buf.ybase + s.rows
            && HistoryMoves(s, w.buf)
            && forall k | 0 <= k < s.rows :: VisibleLine(w.buf, k) == MovedUp(s, k)
  {
    hide Writing, BufferOk, IndexLine, Scroll, MovedUp, HistoryMoves;
    ScreenInside(s);
    HomeColumnShape(s);
    WrapIsOk(s);
    var h := To(s, 0, s.buf.y);
    CursorInside(h);
    IndexLineIs(h);
    IndexLineIsOk(h);
    ScrolledRows(h);
    SameHistory(h, IndexLine(h).buf, Wrap(s).buf);
    HomeHistory(s, Wrap(s).buf);
    forall k | 0 <= k < s.rows
      ensures VisibleLine(Wrap(s).buf, k) == MovedUp(s, k)
    {
      HomeMoves(s, k);
    }
  }

  lemma SameHistory(s: State, t: Buffer, u: Buffer)
    requires HistoryMoves(s, t) && u.ybase == t.ybase && u.ybase <= |u.lines|
    requires forall i | 0 <= i < t.ybase && i < |t.lines| :: u.lines[i] == t.lines[i]
    ensures HistoryMoves(s, u)
  {
  }

  lemma HomeHistory(s: State, t: Buffer)
    ensures HistoryMoves(To(s, 0, s.buf.y), t) == HistoryMoves(s, t)
  {
  }

  /** The rows above the screen after a scroll, with the base it leaves. */
  ghost predicate HistoryMoves(s: State, t: Buffer) {
    var end := if s.buf.scrollTop == 0 then s.buf.ybase + 1 else s.buf.ybase;
    && t.ybase == (if s.buf.ybase + 1 == s.env.scrollback then s.env.scrollback / 2 else s.buf.ybase + 1)
                  - (if s.buf.scrollTop == 0 then 0 else 1)
    && 0 <= t.ybase <= end <= |s.buf.lines| && t.ybase <= |t.lines|
    && forall i | 0 <= i < t.ybase :: t.lines[i] == s.buf.lines[end - t.ybase + i]
  }

  lemma HomeMoves(s: State, k: int)
    requires 0 <= k < s.rows && 0 <= s.cols && 0 <= s.buf.ybase && |s.buf.lines| == s.buf.ybase + s.rows
    requires 0 <= s.buf.scrollTop <= s.buf.scrollBottom < s.rows
    ensures MovedUp(To(s, 0, s.buf.y), k) == MovedUp(s, k)
  {
  }

  lemma PutRow(b: Buffer, cols: int, rows: int, scrollback: int, c: Cell, k: int)
    requires BufferOk(b, cols, rows, scrollback) && b.x < cols && 0 <= k < rows
    requires 0 <= b.ybase && |b.lines| == b.ybase + rows
    ensures var r := PutCell(b, cols, rows, scrollback, c);
            && r == b.(lines := r.lines, x := b.x + 1) && |r.lines| == |b.lines|
            && b.x < |VisibleLine(b, b.y)|
            && (forall i | 0 <= i < |b.lines| && i != b.ybase + b.y :: r.lines[i] == b.lines[i])
            && VisibleLine(r, k) == if k == b.y then VisibleLine(b, k)[b.x := c] else VisibleLine(b, k)
  {
    WideRow(b, cols, rows, scrollback, b.y);
    hide LineOk;
  }

  /** The rows of a scrolled screen, and the row that became history. */
  lemma ScrolledRows(s: State)
    requires Writing(s)
    ensures BufferOk(s.buf, s.cols, s.rows, s.env.scrollback) && s.env.scrollback >= 2 && 0 <= s.cols
    ensures 0 <= s.buf.ybase && |s.buf.lines| == s.buf.ybase + s.rows
    ensures 0 <= s.buf.scrollTop <= s.buf.scrollBottom < s.rows
    ensures var b := Scroll(s.buf, s.cols, s.rows, s.env.scrollback);
            && b == s.buf.(lines := b.lines, ybase := b.ybase, ydisp := b.ybase)
            && 0 <= b.ybase && |b.lines| == b.ybase + s.rows
            && HistoryMoves(s, b)
            && forall k | 0 <= k < s.rows :: VisibleLine(b, k) == MovedUp(s, k)
  {
    hide Writing, BufferOk, Scroll, HistoryMoves, MovedUp;
    CursorInside(s);
    ScreenInside(s);
    IndexLineIs(s);
    ScrolledLine(s);
    forall k | 0 <= k < s.rows
      ensures VisibleLine(Scroll(s.buf, s.cols, s.rows, s.env.scrollback), k) == MovedUp(s, k)
    {
      ScrolledRow(s, k);
    }
  }

  lemma ScrolledRow(s: State, k: int)
    requires BufferOk(s.buf, s.cols, s.rows, s.env.scrollback) && s.env.scrollback >= 2 && 0 <= k < s.rows
    requires 0 <= s.cols && 0 <= s.buf.ybase && |s.buf.lines| == s.buf.ybase + s.rows
    requires 0 <= s.buf.scrollTop <= s.buf.scrollBottom < s.rows
    ensures var b := Scroll(s.buf, s.cols, s.rows, s.env.scrollback);
            0 <= b.ybase && |b.lines| == b.ybase + s.rows && VisibleLine(b, k) == MovedUp(s, k)
  {
    hide BufferOk, Scroll, BlankLine;
    ScrollShifts(s.buf, s.cols, s.rows, s.env.scrollback, k);
  }

  lemma ScrolledLine(s: State)
    requires Writing(s) && BufferOk(s.buf, s.cols, s.rows, s.env.scrollback) && s.env.scrollback >= 2
    ensures var b := Scroll(s.buf, s.cols, s.rows, s.env.scrollback);
            && b == s.buf.(lines := b.lines, ybase := b.ybase, ydisp := b.ybase)
            && 0 <= b.ybase && |b.lines| == b.ybase + s.rows
            && HistoryMoves(s, b)
  {
    hide Writing, LineOk, BlankLine, ScrolledHistory;
  }

  // ---------------------------------------------------------------- whole lines

  predicate Printable(text: string) {
    forall i | 0 <= i < |text| :: text[i] >= ' '
  }

  /** A text that fits in its row. */
  lemma {:induction false} PrintsText(s: State, text: string)
    requires Ready(s) && Printable(text) && s.buf.x + |text| <= s.cols
    ensures 0 <= s.buf.x && 0 <= s.buf.ybase + s.buf.y < |s.buf.lines|
    ensures s.cols <= |s.buf.lines[s.buf.ybase + s.buf.y]|
    ensures var t, row := Run(s, text), s.buf.ybase + s.buf.y;
            && Ready(t) && t == s.(buf := t.buf, paint := t.paint)
            && t.buf == s.buf.(x := s.buf.x + |text|, lines := t.buf.lines)
            && |t.buf.lines| == |s.buf.lines|
            && (forall i | 0 <= i < |s.buf.lines| && i != row :: t.buf.lines[i] == s.buf.lines[i])
            && |t.buf.lines[row]| == |s.buf.lines[row]|
            && forall i | 0 <= i < |s.buf.lines[row]| ::
                 t.buf.lines[row][i] == if s.buf.x <= i < s.buf.x + |text| then Printed(s, text[i - s.buf.x])
                                        else s.buf.lines[row][i]
    decreases |text|
  {
    hide Writing, Run, BufferOk;
    CursorInside(s);
    WideRow(s.buf, s.cols, s.rows, s.env.scrollback, s.buf.y);
    if text == "" {
      RunEnds(s);
    } else {
      PrintsInPlace(s, text[0]);
      PrintOne(s, text[0], text[1..]);
      PrintOne(s, text[0], "");
      RunEnds(Print(s, text[0]));
      assert text == [text[0]] + text[1..] && [text[0]] + "" == [text[0]];
      PrintsText(Print(s, text[0]), text[1..]);
    }
  }

  /**
   One character more than a row is wide, from its start and above the bottom margin: the row holds the first of them
   column by column, the last one stands in the first column of the next row, and no other cell has changed.
   */
  lemma PrintsRowAndOne(s: State, text: string, last: char)
    requires Ready(s) && Printable(text + [last]) && s.buf.x == 0 && |text| == s.cols && s.buf.y < s.buf.scrollBottom
    ensures 0 <= s.buf.ybase && 0 <= s.buf.y && s.buf.ybase + s.buf.y + 1 < |s.buf.lines|
    ensures var t, row := Run(s, text + [last]), s.buf.ybase + s.buf.y;
            && Ready(t) && |t.buf.lines| == |s.buf.lines| && t.buf.x == 1 && t.buf.y == s.buf.y + 1
            && (forall i | 0 <= i < |s.buf.lines| && i != row && i != row + 1 :: t.buf.lines[i] == s.buf.lines[i])
            && s.cols <= |t.buf.lines[row]| == |s.buf.lines[row]| && 0 < |s.buf.lines[row + 1]|
            && (forall i | 0 <= i < s.cols :: t.buf.lines[row][i] == Printed(s, text[i]))
            && t.buf.lines[row + 1] == s.buf.lines[row + 1][0 := Printed(s, last)]
  {
    hide Writing, Run, BufferOk;
    CursorInside(s);
    ScreenInside(s);
    assert Printable(text) && last >= ' ' by {
      assert forall i | 0 <= i < |text| :: text[i] == (text + [last])[i];
      assert (text + [last])[|text|] == last;
    }
    PrintsText(s, text);
    var full := Run(s, text);
    PrintsInNextRow(full, last);
    TextThenOne(s, text, last);
  }

  lemma {:induction false} TextThenOne(s: State, text: string, last: char)
    requires Ready(s) && Printable(text) && Ready(Run(s, text))
    ensures Run(s, text + [last]) == Run(Run(s, text), [last])
    decreases |text|
  {
    hide Writing, Run;
    if text == "" {
      RunEnds(s);
      assert text + [last] == [last];
    } else {
      assert text == [text[0]] + text[1..] && text + [last] == [text[0]] + (text[1..] + [last]);
      PrintOne(s, text[0], text[1..]);
      PrintOne(s, text[0], text[1..] + [last]);
      TextThenOne(Print(s, text[0]), text[1..], last);
    }
  }
}
