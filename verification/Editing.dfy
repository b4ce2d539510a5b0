/**
 Laws of the editing commands, as a program on the other end sees them: streams of control
 sequences and the screens they leave.
 */
module Editing {
  import opened Shifts
  import opened Attributes
  import opened Rendering
  import opened Screen
  import opened Emulator
  import opened Shape
  import opened EditSplices
  import opened ControlSequences
  import opened SmallTexts

  /** CSI n f CSI m g. */
  function Pair(f: char, n: nat, g: char, m: nat): string {
    Sequence("", [n], f) + Sequence("", [m], g)
  }

  lemma PairRun(s: State, f: char, n: nat, g: char, m: nat)
    requires Ready(s) && IsEdit(f) && f != 'b' && IsEdit(g) && g != 'b'
    ensures Ready(Edited(s, f, n)) && Ready(Edited(Edited(s, f, n), g, m))
    ensures Run(s, Pair(f, n, g, m)) == Edited(Edited(s, f, n), g, m)
    ensures Run(s, Sequence("", [n], f)) == Edited(s, f, n)
  {
    hide Writing, Edited, Sequence;
    EditRun(s, f, n, Sequence("", [m], g));
    EditRun(s, f, n, "");
    EditRun(Edited(s, f, n), g, m, "");
    assert Sequence("", [m], g) + "" == Sequence("", [m], g) && Sequence("", [n], f) + "" == Sequence("", [n], f);
    RunEnds(Edited(s, f, n));
    RunEnds(Edited(Edited(s, f, n), g, m));
  }

  /** What an editing command leaves alone. */
  lemma EditedKeeps(s: State, f: char, n: nat)
    requires Ready(s) && IsEdit(f) && f != 'b' && Ready(Edited(s, f, n))
    ensures var t := Edited(s, f, n);
            && t == s.(buf := t.buf, paint := t.paint, parser := t.parser)
            && t.buf == s.buf.(lines := t.buf.lines) && |t.buf.lines| == |s.buf.lines|
            && BufferOk(s.buf, s.cols, s.rows, s.env.scrollback)
            && t.buf == EditBuffer(s.buf, s.cols, s.rows, s.env.scrollback, s.curAttr, "", f, [n])
  {
    hide Writing, EditBuffer, EditDamage, BufferOk;
    ExecutingShape(s, "", [n]);
    CursorInside(s);
    EditedKeepsView(s.(parser := Parser(Normal, [n], 0, "", "")), f, [n]);
  }

  /** Two editing commands on the buffer alone. */
  lemma PairBuffer(s: State, f: char, n: nat, g: char, m: nat)
    requires Ready(s) && IsEdit(f) && f != 'b' && IsEdit(g) && g != 'b'
    ensures BufferOk(s.buf, s.cols, s.rows, s.env.scrollback)
    ensures var once := EditBuffer(s.buf, s.cols, s.rows, s.env.scrollback, s.curAttr, "", f, [n]);
            && BufferOk(once, s.cols, s.rows, s.env.scrollback)
            && once == s.buf.(lines := once.lines) && |once.lines| == |s.buf.lines|
            && Run(s, Sequence("", [n], f)).buf == once
            && var t := Run(s, Pair(f, n, g, m));
            && Ready(t) && t.buf == s.buf.(lines := t.buf.lines) && |t.buf.lines| == |s.buf.lines|
            && t.buf == EditBuffer(once, s.cols, s.rows, s.env.scrollback, s.curAttr, "", g, [m])
  {
    hide Writing, BufferOk, Edited, EditBuffer;
    CursorInside(s);
    PairRun(s, f, n, g, m);
    EditedKeeps(s, f, n);
    EditedKeeps(Edited(s, f, n), g, m);
  }

  /** The rows the line commands work on, as places in `lines`. */
  predicate InWindow(b: Buffer, first: int, last: int, i: int) {
    b.ybase + first <= i <= b.ybase + last
  }

  // ---------------------------------------------------------------- lines

  /**
   IL n and then DL n: inside the region everything from the cursor down is back except the last n rows, which are
   blank; no other line of the buffer, visible or scrolled off, has changed.
   */
  lemma InsertThenDeleteLines(s: State, n: nat)
    requires Ready(s) && s.buf.y <= s.buf.scrollBottom
    ensures 0 <= s.cols
    ensures var t := Run(s, Pair('L', n, 'M', n));
            && Ready(t) && t.buf == s.buf.(lines := t.buf.lines) && |t.buf.lines| == |s.buf.lines|
            && forall i {:trigger t.buf.lines[i]} | 0 <= i < |s.buf.lines| ::
                 t.buf.lines[i]
                 == if InWindow(s.buf, Max(s.buf.y, s.buf.scrollBottom + 1 - Max(1, n)), s.buf.scrollBottom, i)
                    then BlankLine(s.cols, s.curAttr) else s.buf.lines[i]
  {
    hide Writing, BufferOk, ShiftDown, ShiftUp, BlankLine, Run;
    CursorInside(s);
    BufferInside(s.buf, s.cols, s.rows, s.env.scrollback);
    PairBuffer(s, 'L', n, 'M', n);
    var blank := BlankLine(s.cols, s.curAttr);
    ShiftDownThenUp(s.buf.lines, s.buf.ybase + s.buf.y, s.buf.ybase + s.buf.scrollBottom + 1, Max(1, n), blank, blank);
  }

  /** DL n and then IL n: the first n rows from the cursor on are blank, the others are back. */
  lemma DeleteThenInsertLines(s: State, n: nat)
    requires Ready(s) && s.buf.y <= s.buf.scrollBottom
    ensures 0 <= s.cols
    ensures var t := Run(s, Pair('M', n, 'L', n));
            && Ready(t) && t.buf == s.buf.(lines := t.buf.lines) && |t.buf.lines| == |s.buf.lines|
            && forall i {:trigger t.buf.lines[i]} | 0 <= i < |s.buf.lines| ::
                 t.buf.lines[i] == if InWindow(s.buf, s.buf.y, Min(s.buf.y + Max(1, n) - 1, s.buf.scrollBottom), i)
                                   then BlankLine(s.cols, s.curAttr) else s.buf.lines[i]
  {
    hide Writing, BufferOk, ShiftDown, ShiftUp, BlankLine, Run;
    CursorInside(s);
    BufferInside(s.buf, s.cols, s.rows, s.env.scrollback);
    PairBuffer(s, 'M', n, 'L', n);
    var blank := BlankLine(s.cols, s.curAttr);
    ShiftUpThenDown(s.buf.lines, s.buf.ybase + s.buf.y, s.buf.ybase + s.buf.scrollBottom + 1, Max(1, n), blank, blank);
  }

  /** SD n and then SU n, wherever the cursor is: the region is back except its last n rows. */
  lemma ScrollDownThenUp(s: State, n: nat)
    requires Ready(s)
    ensures 0 <= s.cols
    ensures var t := Run(s, Pair('T', n, 'S', n));
            && Ready(t) && t.buf == s.buf.(lines := t.buf.lines) && |t.buf.lines| == |s.buf.lines|
            && forall i {:trigger t.buf.lines[i]} | 0 <= i < |s.buf.lines| ::
                 t.buf.lines[i]
                 == if InWindow(s.buf, Max(s.buf.scrollTop, s.buf.scrollBottom + 1 - Max(1, n)), s.buf.scrollBottom, i)
                    then BlankLine(s.cols, DEF_ATTR) else s.buf.lines[i]
  {
    hide Writing, BufferOk, ShiftDown, ShiftUp, BlankLine, Run;
    CursorInside(s);
    BufferInside(s.buf, s.cols, s.rows, s.env.scrollback);
    PairBuffer(s, 'T', n, 'S', n);
    var blank := BlankLine(s.cols, DEF_ATTR);
    var first, end := s.buf.ybase + s.buf.scrollTop, s.buf.ybase + s.buf.scrollBottom + 1;
    ShiftDownThenUp(s.buf.lines, first, end, Max(1, n), blank, blank);
  }

  /** The commands that shift lines. */
  predicate ShiftsLines(f: char) {
    f == 'L' || f == 'M' || f == 'S' || f == 'T'
  }

  /** Shifting by n rows and then by m rows is shifting by n + m rows, past the margin as well. */
  lemma LineShiftsAdd(s: State, f: char, n: nat, m: nat)
    requires Ready(s) && ShiftsLines(f) && 1 <= n && 1 <= m
    ensures Run(s, Pair(f, n, f, m)).buf == Run(s, Sequence("", [n + m], f)).buf
  {
    hide Writing, BufferOk, EditBuffer, Run;
    PairBuffer(s, f, n, f, m);
    PairBuffer(s, f, n + m, f, m);
    BufferShiftsAdd(s.buf, s.cols, s.rows, s.env.scrollback, s.curAttr, f, n, m);
  }

  lemma BufferShiftsAdd(b: Buffer, cols: int, rows: int, scrollback: int, attr: bv32, f: char, n: nat, m: nat)
    requires BufferOk(b, cols, rows, scrollback) && ShiftsLines(f) && 1 <= n && 1 <= m
    requires BufferOk(EditBuffer(b, cols, rows, scrollback, attr, "", f, [n]), cols, rows, scrollback)
    ensures var once := EditBuffer(b, cols, rows, scrollback, attr, "", f, [n]);
            EditBuffer(once, cols, rows, scrollback, attr, "", f, [m])
            == EditBuffer(b, cols, rows, scrollback, attr, "", f, [n + m])
  {
    hide BufferOk, EditBuffer, Shift;
    BufferInside(b, cols, rows, scrollback);
    EditShifts(b, cols, rows, scrollback, attr, f, n);
    EditShifts(b, cols, rows, scrollback, attr, f, n + m);
    EditShifts(EditBuffer(b, cols, rows, scrollback, attr, "", f, [n]), cols, rows, scrollback, attr, f, m);
    var (lo, hi, up, v) := Window(b, cols, attr, f);
    ShiftAdds(b.lines, lo, hi, up, n, m, v);
  }

  function Shift<T>(s: seq<T>, lo: nat, hi: nat, up: bool, n: nat, v: T): (r: seq<T>)
    requires lo <= hi <= |s|
    ensures |r| == |s|
  {
    if up then ShiftUp(s, lo, hi, n, v) else ShiftDown(s, lo, hi, n, v)
  }

  lemma ShiftAdds<T>(s: seq<T>, lo: nat, hi: nat, up: bool, n: nat, m: nat, v: T)
    requires lo <= hi <= |s|
    ensures Shift(Shift(s, lo, hi, up, n, v), lo, hi, up, m, v) == Shift(s, lo, hi, up, n + m, v)
  {
    hide ShiftUp, ShiftDown;
    ShiftsAdd(s, lo, hi, n, m, v);
  }

  /** The window of a line command, whether it moves up, and what fills it. */
  function Window(b: Buffer, cols: int, attr: bv32, f: char): (w: (nat, nat, bool, Line))
    requires 0 <= cols && 0 <= b.ybase && 0 <= b.y && 0 <= b.scrollTop <= b.scrollBottom
    ensures w.0 <= w.1
  {
    var row, top, end := b.ybase + b.y, b.ybase + b.scrollTop, b.ybase + b.scrollBottom + 1;
    if f == 'S' || f == 'T' then (top, end, f == 'S', BlankLine(cols, DEF_ATTR))
    else (Min(row, end), Max(row, end), (f == 'M') == (row < end), BlankLine(cols, attr))
  }

  lemma EditShifts(b: Buffer, cols: int, rows: int, scrollback: int, attr: bv32, f: char, n: nat)
    requires BufferOk(b, cols, rows, scrollback) && ShiftsLines(f) && 1 <= n
    ensures 0 <= cols && 0 <= b.ybase && 0 <= b.y < rows
    ensures 0 <= b.scrollTop <= b.scrollBottom < rows && |b.lines| == b.ybase + rows
    ensures var (lo, hi, up, v) := Window(b, cols, attr, f);
            EditBuffer(b, cols, rows, scrollback, attr, "", f, [n]) == b.(lines := Shift(b.lines, lo, hi, up, n, v))
  {
    hide BufferOk, ShiftDown, ShiftUp, BlankLine;
    BufferInside(b, cols, rows, scrollback);
  }

  // ---------------------------------------------------------------- characters

  /**
   ICH n and then DCH n, wherever the cursor is and however long its row is: with room for n characters the columns
   below the last n are back and those from the cursor on among the last n are blank. Without that room, on an
   overlong row, what DCH removes beyond the inserted blanks is missing; with the cursor at the row's very end one
   blank is added.
   */
  lemma InsertThenDeleteChars(s: State, n: nat)
    requires Ready(s)
    ensures 0 <= s.buf.ybase + s.buf.y < |s.buf.lines| && 0 <= s.buf.x
    ensures var t, line := Run(s, Pair('@', n, 'P', n)), VisibleLine(s.buf, s.buf.y);
            && Ready(t) && |t.buf.lines| == |s.buf.lines| && t.buf.ybase == s.buf.ybase
            && t.buf == WithRow(s.buf, s.buf.y, VisibleLine(t.buf, s.buf.y))
            && |VisibleLine(t.buf, s.buf.y)| == Max(|line|, s.buf.x + 1)
            && forall i {:trigger VisibleLine(t.buf, s.buf.y)[i]} | 0 <= i < Max(|line|, s.buf.x + 1) ::
                 VisibleLine(t.buf, s.buf.y)[i]
                 == if i < s.buf.x then line[i]
                    else if i + Max(1, n) < |line| then line[i + Max(1, n) - Min(Max(1, n), s.cols - s.buf.x)]
                    else Blank(s.curAttr)
  {
    hide Writing, BufferOk, ShiftDown, ShiftUp, Run;
    CursorInside(s);
    CursorRowInside(s);
    PairBuffer(s, '@', n, 'P', n);
  }

  // ---------------------------------------------------------------- index commands

  /** ESC M leaves the buffer that CSI 1 L would leave if and only if the cursor is not below the top margin. */
  lemma ReverseIndexIsInsertLine(s: State)
    requires Ready(s)
    ensures (Run(s, [ESC, 'M']).buf == Run(s, Sequence("", [1], 'L')).buf) <==> s.buf.y <= s.buf.scrollTop
  {
    hide Writing, BufferOk, Edited, Screen.ReverseIndex, Screen.InsertLines;
    CursorInside(s);
    PairRun(s, 'L', 1, 'L', 1);
    EditedKeeps(s, 'L', 1);
    EscapeRun(s, 'M', "");
    assert [ESC, 'M'] + "" == [ESC, 'M'];
    RunEnds(ReverseIndexLine(s));
    if s.buf.y <= s.buf.scrollTop {
      ReverseRound(s.buf, s.cols, s.rows, s.env.scrollback, s.curAttr);
    } else {
      ReverseMoves(s.buf, s.cols, s.rows, s.env.scrollback, s.curAttr);
    }
  }

  lemma ReverseMoves(b: Buffer, cols: int, rows: int, scrollback: int, attr: bv32)
    requires BufferOk(b, cols, rows, scrollback) && b.y > b.scrollTop
    ensures Screen.ReverseIndex(b, cols, rows, scrollback, attr).y == b.y - 1
  {
  }

  /**
   Scrolling by a line feed at or below the bottom margin and CSI 1 S show the same screen. With a top margin they
   leave the same buffer unless the scrollback is trimmed; without one the old first row has become the newest
   scrollback row.
   */
  lemma IndexIsScrollUp(s: State)
    requires Ready(s) && s.buf.y >= s.buf.scrollBottom
    ensures 0 <= s.buf.ybase < |s.buf.lines|
    ensures var t, u := Run(s, [ESC, 'D']), Run(s, Sequence("", [1], 'S'));
            && Ready(t) && Ready(u) && t.paint == u.paint
            && 0 <= t.buf.ybase && |t.buf.lines| == t.buf.ybase + s.rows
            && u.buf.ybase == s.buf.ybase && |u.buf.lines| == |s.buf.lines| == s.buf.ybase + s.rows
            && (forall k | 0 <= k < s.rows :: VisibleLine(t.buf, k) == VisibleLine(u.buf, k))
            && (0 < s.buf.scrollTop && s.buf.ybase + 1 < s.env.scrollback ==> t.buf == u.buf)
            && (s.buf.scrollTop == 0 ==> 0 < t.buf.ybase && t.buf.lines[t.buf.ybase - 1] == s.buf.lines[s.buf.ybase])
  {
    hide Writing, BufferOk, Edited, Scroll, Screen.ScrollUp, Run, IndexLine;
    CursorInside(s);
    BufferInside(s.buf, s.cols, s.rows, s.env.scrollback);
    PairRun(s, 'S', 1, 'S', 1);
    PairBuffer(s, 'S', 1, 'S', 1);
    EscapeRun(s, 'D', "");
    assert [ESC, 'D'] + "" == [ESC, 'D'];
    RunEnds(IndexLine(s));
    ScrollShows(s.buf, s.cols, s.rows, s.env.scrollback);
    SamePaint(s);
  }

  lemma SamePaint(s: State)
    requires Ready(s) && s.buf.y >= s.buf.scrollBottom && Ready(Edited(s, 'S', 1))
    ensures IndexLine(s).paint == Edited(s, 'S', 1).paint
    ensures IndexLine(s).buf == Index(s.buf, s.cols, s.rows, s.env.scrollback)
  {
    hide Writing, Index, EditedBuffer;
    CursorInside(s);
  }

  lemma ScrollShows(b: Buffer, cols: int, rows: int, scrollback: int)
    requires BufferOk(b, cols, rows, scrollback) && scrollback >= 2
    ensures var r, u := Scroll(b, cols, rows, scrollback), Screen.ScrollUp(b, cols, rows, scrollback, 1);
            && 0 <= r.ybase && |r.lines| == r.ybase + rows && |u.lines| == |b.lines| && u.ybase == b.ybase
            && (forall k | 0 <= k < rows :: VisibleLine(r, k) == VisibleLine(u, k))
            && (0 < b.scrollTop && b.ybase + 1 < scrollback && b.ydisp == b.ybase ==> r == u)
            && (b.scrollTop == 0 ==> 0 < r.ybase && r.lines[r.ybase - 1] == b.lines[b.ybase])
  {
    hide LineOk, ScrolledHistory, BlankLine;
    var r, u := Scroll(b, cols, rows, scrollback), Screen.ScrollUp(b, cols, rows, scrollback, 1);
    if 0 < b.scrollTop && b.ybase + 1 < scrollback && b.ydisp == b.ybase {
      assert r.lines == u.lines;
    }
  }
}
