/** What each editing command leaves, cell by cell, as a program on the other end sees it. */
module Commands {
  import opened Shifts
  import opened Attributes
  import opened Rendering
  import opened Screen
  import opened Emulator
  import opened Shape
  import opened ControlSequences
  import opened SmallTexts

  /** CSI n f. */
  function Command(n: nat, f: char): string {
    Sequence("", [n], f)
  }

  /** An editing command changes the buffer and the damage range and nothing else. */
  lemma CommandRun(s: State, f: char, n: nat)
    requires Ready(s) && IsEdit(f) && HasRoom(s, f, n)
    ensures BufferOk(s.buf, s.cols, s.rows, s.env.scrollback)
    ensures var t := Run(s, Command(n, f));
            && Ready(t) && t == s.(buf := t.buf, paint := t.paint, parser := Parser(Normal, [n], 0, "", ""))
            && t.buf == EditBuffer(s.buf, s.cols, s.rows, s.env.scrollback, s.curAttr, "", f, [n])
  {
    hide Writing, BufferOk, Run, Sequence, EditBuffer, EditDamage;
    CursorInside(s);
    ExecutingShape(s, "", [n]);
    EditRun(s, f, n, "");
    assert Sequence("", [n], f) + "" == Sequence("", [n], f);
    RunEnds(Edited(s, f, n));
  }

  /** Sizes that the statements below need. */
  lemma Sizes(s: State)
    requires Writing(s)
    ensures 1 <= s.cols && 0 <= s.buf.ybase && |s.buf.lines| == s.buf.ybase + s.rows
    ensures 0 <= s.buf.x <= s.cols && 0 <= s.buf.y < s.rows && 0 <= s.buf.scrollTop <= s.buf.scrollBottom < s.rows
    ensures forall i | 0 <= i < |s.buf.lines| :: s.cols <= |s.buf.lines[i]|
    ensures BufferOk(s.buf, s.cols, s.rows, s.env.scrollback)
  {
    hide PaletteOk, AttrOk;
  }

  /** Only line i has changed. */
  predicate OnlyLine(b: Buffer, t: Buffer, i: int) {
    0 <= i < |b.lines| == |t.lines| && t == b.(lines := b.lines[i := t.lines[i]])
  }

  // ---------------------------------------------------------------- erasing

  /** EL: 0 blanks from the cursor to the width, 1 up to and with the cursor, 2 the width; others do nothing. */
  lemma EraseInLineCells(s: State, n: nat)
    requires Ready(s)
    ensures 0 <= s.buf.ybase + s.buf.y < |s.buf.lines|
    ensures var t, row := Run(s, Command(n, 'K')).buf, s.buf.ybase + s.buf.y;
            && OnlyLine(s.buf, t, row)
            && |t.lines[row]| == (if n == 1 then Max(|s.buf.lines[row]|, s.buf.x + 1) else |s.buf.lines[row]|)
            && forall i | 0 <= i < |t.lines[row]| ::
                 if (n == 0 && s.buf.x <= i < s.cols) || (n == 1 && i <= s.buf.x) || (n == 2 && i < s.cols)
                 then t.lines[row][i] == Cell(s.curAttr, ' ')
                 else i < |s.buf.lines[row]| && t.lines[row][i] == s.buf.lines[row][i]
  {
    hide Writing, BufferOk, Run, Fill;
    Sizes(s);
    CommandRun(s, 'K', n);
    assert s.buf.lines[s.buf.ybase + s.buf.y := s.buf.lines[s.buf.ybase + s.buf.y]] == s.buf.lines;
    if n == 2 {
      EraseOneRow(s);
    }
  }

  lemma EraseOneRow(s: State)
    requires Writing(s) && 0 <= s.buf.ybase + s.buf.y < |s.buf.lines| && 0 <= s.buf.ybase && 0 <= s.buf.y && 0 <= s.cols
    ensures var row := s.buf.ybase + s.buf.y;
            EraseRows(s.buf, s.buf.y, s.buf.y + 1, s.cols, Blank(s.curAttr)).lines
            == s.buf.lines[row := Fill(s.buf.lines[row], 0, s.cols, Blank(s.curAttr))]
  {
    hide Writing, Fill;
  }

  /**
   ED: 0 blanks the cursor's row from the cursor on and the rows below it, 1 the rows above it and the cursor's row up
   to and with the cursor, 2 all rows of the screen; others do nothing. Scrollback is never touched, nor are cells
   beyond the width.
   */
  lemma EraseInDisplayCells(s: State, n: nat)
    requires Ready(s)
    ensures var t, row := Run(s, Command(n, 'J')).buf, s.buf.ybase + s.buf.y;
            && t == s.buf.(lines := t.lines) && |t.lines| == |s.buf.lines|
            && forall k | 0 <= k < |s.buf.lines| ::
                 && |t.lines[k]|
                    == (if n == 1 && k == row then Max(|s.buf.lines[k]|, s.buf.x + 1) else |s.buf.lines[k]|)
                 && forall i | 0 <= i < |t.lines[k]| ::
                      if || (n == 0 && ((k == row && s.buf.x <= i < s.cols) || (row < k && i < s.cols)))
                         || (n == 1 && ((k == row && i <= s.buf.x) || (s.buf.ybase <= k < row && i < s.cols)))
                         || (n == 2 && s.buf.ybase <= k && i < s.cols)
                      then t.lines[k][i] == Cell(s.curAttr, ' ')
                      else i < |s.buf.lines[k]| && t.lines[k][i] == s.buf.lines[k][i]
  {
    hide Writing, BufferOk, Run, Fill;
    Sizes(s);
    CommandRun(s, 'J', n);
  }

  /** ECH: the cursor's column and those after it, n in all and not beyond the width. */
  lemma EraseCharsCells(s: State, n: nat)
    requires Ready(s)
    ensures 0 <= s.buf.ybase + s.buf.y < |s.buf.lines|
    ensures var t, row := Run(s, Command(n, 'X')).buf, s.buf.ybase + s.buf.y;
            && OnlyLine(s.buf, t, row) && |t.lines[row]| == |s.buf.lines[row]|
            && forall i | 0 <= i < |t.lines[row]| ::
                 t.lines[row][i] == if s.buf.x <= i < Min(s.buf.x + Max(1, n), s.cols) then Cell(s.curAttr, ' ')
                                    else s.buf.lines[row][i]
  {
    hide Writing, BufferOk, Run, Fill;
    Sizes(s);
    CommandRun(s, 'X', n);
  }

  /** REP: n copies of the cell left of the cursor, or of a default blank in column 0; the cursor ends behind them. */
  lemma RepeatCells(s: State, n: nat)
    requires Ready(s) && s.buf.x + Max(1, n) <= s.cols
    ensures 0 <= s.buf.ybase + s.buf.y < |s.buf.lines| && s.buf.x <= |s.buf.lines[s.buf.ybase + s.buf.y]|
    ensures var t, row := Run(s, Command(n, 'b')).buf, s.buf.ybase + s.buf.y;
            var copy := if s.buf.x > 0 then s.buf.lines[row][s.buf.x - 1] else Cell((257 << 9) | 256, ' ');
            && OnlyLine(s.buf, t.(x := s.buf.x), row) && t.x == s.buf.x + Max(1, n)
            && |t.lines[row]| == |s.buf.lines[row]|
            && forall i | 0 <= i < |t.lines[row]| ::
                 t.lines[row][i] == if s.buf.x <= i < s.buf.x + Max(1, n) then copy else s.buf.lines[row][i]
  {
    hide Writing, BufferOk, Run, Fill;
    Sizes(s);
    CommandRun(s, 'b', n);
  }

  // ---------------------------------------------------------------- shifting cells

  /**
   ICH: blanks at the cursor, as many as asked for and fit, the rest of the row moving right and falling off its end.
   */
  lemma InsertCharsCells(s: State, n: nat)
    requires Ready(s)
    ensures 0 <= s.buf.ybase + s.buf.y < |s.buf.lines|
    ensures var t, row, m := Run(s, Command(n, '@')).buf, s.buf.ybase + s.buf.y, Min(Max(1, n), s.cols - s.buf.x);
            && OnlyLine(s.buf, t, row) && |t.lines[row]| == |s.buf.lines[row]|
            && forall i {:trigger t.lines[row][i]} | 0 <= i < |t.lines[row]| ::
                 t.lines[row][i] == if i < s.buf.x then s.buf.lines[row][i]
                                    else if i < s.buf.x + m then Cell(s.curAttr, ' ')
                                    else s.buf.lines[row][i - m]
  {
    hide Writing, BufferOk, Run, ShiftDown;
    Sizes(s);
    CommandRun(s, '@', n);
    var row, m := s.buf.ybase + s.buf.y, Min(Max(1, n), s.cols - s.buf.x);
    assert Run(s, Command(n, '@')).buf.lines[row]
        == ShiftDown(s.buf.lines[row], s.buf.x, |s.buf.lines[row]|, m, Cell(s.curAttr, ' '));
  }

  /**
   DCH: the rest of the row moves left by n, blanks coming in at its end; at the very end of a row one blank is added.
   */
  lemma DeleteCharsCells(s: State, n: nat)
    requires Ready(s)
    ensures 0 <= s.buf.ybase + s.buf.y < |s.buf.lines|
    ensures var t, row := Run(s, Command(n, 'P')).buf, s.buf.ybase + s.buf.y;
            && OnlyLine(s.buf, t, row) && |t.lines[row]| == Max(|s.buf.lines[row]|, s.buf.x + 1)
            && forall i {:trigger t.lines[row][i]} | 0 <= i < |t.lines[row]| ::
                 t.lines[row][i] == if i < s.buf.x then s.buf.lines[row][i]
                                    else if i + Max(1, n) < |s.buf.lines[row]| then s.buf.lines[row][i + Max(1, n)]
                                    else Cell(s.curAttr, ' ')
  {
    hide Writing, BufferOk, Run, ShiftUp;
    Sizes(s);
    CommandRun(s, 'P', n);
  }

  // ---------------------------------------------------------------- shifting lines

  /** A line of blanks. */
  predicate IsBlank(line: Line, cols: int, attr: bv32) {
    |line| == cols && forall i | 0 <= i < |line| :: line[i] == Cell(attr, ' ')
  }

  /** The lines from first to last have moved down by n, blank lines coming in; all others are as they were. */
  predicate MovedDown(b: Buffer, t: Buffer, first: int, last: int, n: nat, cols: int, attr: bv32) {
    && t == b.(lines := t.lines) && |t.lines| == |b.lines|
    && forall k | 0 <= k < |b.lines| ::
         if k < first || last < k then t.lines[k] == b.lines[k]
         else if k < first + n then IsBlank(t.lines[k], cols, attr)
         else 0 <= k - n && t.lines[k] == b.lines[k - n]
  }

  predicate MovedUp(b: Buffer, t: Buffer, first: int, last: int, n: nat, cols: int, attr: bv32) {
    && t == b.(lines := t.lines) && |t.lines| == |b.lines|
    && forall k | 0 <= k < |b.lines| ::
         if k < first || last < k then t.lines[k] == b.lines[k]
         else if last < k + n then IsBlank(t.lines[k], cols, attr)
         else k + n < |b.lines| && t.lines[k] == b.lines[k + n]
  }

  lemma ShiftsMove(b: Buffer, lo: nat, hi: nat, n: nat, cols: nat, attr: bv32)
    requires lo <= hi <= |b.lines|
    ensures MovedDown(b, b.(lines := ShiftDown(b.lines, lo, hi, n, BlankLine(cols, attr))), lo, hi - 1, n, cols, attr)
    ensures MovedUp(b, b.(lines := ShiftUp(b.lines, lo, hi, n, BlankLine(cols, attr))), lo, hi - 1, n, cols, attr)
  {
    hide MovedDown, MovedUp, ShiftDown, ShiftUp, BlankLine;
    ShiftMovesDown(b, lo, hi, n, cols, attr);
    ShiftMovesUp(b, lo, hi, n, cols, attr);
  }

  lemma ShiftMovesDown(b: Buffer, lo: nat, hi: nat, n: nat, cols: nat, attr: bv32)
    requires lo <= hi <= |b.lines|
    ensures MovedDown(b, b.(lines := ShiftDown(b.lines, lo, hi, n, BlankLine(cols, attr))), lo, hi - 1, n, cols, attr)
  {
    hide ShiftDown, BlankLine, IsBlank;
    var blank := BlankLine(cols, attr);
    var down := ShiftDown(b.lines, lo, hi, n, blank);
    BlankIs(cols, attr);
    assert forall k | 0 <= k < |b.lines| ::
        down[k] == if k < lo || hi <= k then b.lines[k] else if k < lo + n then blank else b.lines[k - n];
  }

  lemma ShiftMovesUp(b: Buffer, lo: nat, hi: nat, n: nat, cols: nat, attr: bv32)
    requires lo <= hi <= |b.lines|
    ensures MovedUp(b, b.(lines := ShiftUp(b.lines, lo, hi, n, BlankLine(cols, attr))), lo, hi - 1, n, cols, attr)
  {
    hide ShiftUp, BlankLine, IsBlank;
    var blank := BlankLine(cols, attr);
    var up := ShiftUp(b.lines, lo, hi, n, blank);
    BlankIs(cols, attr);
    assert forall k | 0 <= k < |b.lines| ::
        up[k] == if k < lo || hi <= k then b.lines[k] else if hi - n <= k then blank else b.lines[k + n];
  }

  lemma BlankIs(cols: nat, attr: bv32)
    ensures IsBlank(BlankLine(cols, attr), cols, attr)
  {
  }

  /**
   IL: from the cursor to the bottom margin the rows move down, blanks in the current colours. With the cursor below the
   region it is the rows between margin and cursor that move up.
   */
  lemma InsertLinesRows(s: State, n: nat)
    requires Ready(s)
    ensures var b, t := s.buf, Run(s, Command(n, 'L')).buf;
            var row, margin := b.ybase + b.y, b.ybase + b.scrollBottom;
            if row <= margin then MovedDown(b, t, row, margin, Max(1, n), s.cols, s.curAttr)
            else MovedUp(b, t, margin + 1, row - 1, Max(1, n), s.cols, s.curAttr)
  {
    hide Writing, BufferOk, Run, ShiftUp, ShiftDown, BlankLine, MovedDown, MovedUp;
    Sizes(s);
    CommandRun(s, 'L', n);
    var row, end := s.buf.ybase + s.buf.y, s.buf.ybase + s.buf.scrollBottom + 1;
    ShiftsMove(s.buf, Min(row, end), Max(row, end), Max(1, n), s.cols, s.curAttr);
  }

  /** DL: the same the other way round. */
  lemma DeleteLinesRows(s: State, n: nat)
    requires Ready(s)
    ensures var b, t := s.buf, Run(s, Command(n, 'M')).buf;
            var row, margin := b.ybase + b.y, b.ybase + b.scrollBottom;
            if row <= margin then MovedUp(b, t, row, margin, Max(1, n), s.cols, s.curAttr)
            else MovedDown(b, t, margin + 1, row - 1, Max(1, n), s.cols, s.curAttr)
  {
    hide Writing, BufferOk, Run, ShiftUp, ShiftDown, BlankLine, MovedDown, MovedUp;
    Sizes(s);
    CommandRun(s, 'M', n);
    var row, end := s.buf.ybase + s.buf.y, s.buf.ybase + s.buf.scrollBottom + 1;
    ShiftsMove(s.buf, Min(row, end), Max(row, end), Max(1, n), s.cols, s.curAttr);
  }

  /** SU and SD: the whole region moves, blanks in the default colours. */
  lemma ScrollRows(s: State, n: nat)
    requires Ready(s)
    ensures var b, up, down := s.buf, Run(s, Command(n, 'S')).buf, Run(s, Command(n, 'T')).buf;
            var top, bottom := b.ybase + b.scrollTop, b.ybase + b.scrollBottom;
            && MovedUp(b, up, top, bottom, Max(1, n), s.cols, (257 << 9) | 256)
            && MovedDown(b, down, top, bottom, Max(1, n), s.cols, (257 << 9) | 256)
  {
    hide Writing, BufferOk, Run, ShiftUp, ShiftDown, BlankLine, MovedDown, MovedUp;
    Sizes(s);
    CommandRun(s, 'S', n);
    CommandRun(s, 'T', n);
    var top, end := s.buf.ybase + s.buf.scrollTop, s.buf.ybase + s.buf.scrollBottom + 1;
    ShiftsMove(s.buf, top, end, Max(1, n), s.cols, DEF_ATTR);
  }

  // ---------------------------------------------------------------- parameters

  /** A command with no parameter has the parameter 0. */
  lemma OmittedParameter(s: State, f: char, rest: string)
    requires Ready(s) && IsFinal(f)
    ensures Run(s, [ESC, '[', f] + rest) == Run(s, Command(0, f) + rest)
  {
    hide Writing, Run, Execute, Executed, IsFinal;
    assert [ESC, '[', f] + rest == [ESC, '['] + ([f] + rest);
    ControlSequences.Opening(s, [f] + rest);
    StepFinal(s, "", [], 0, f, rest);
    SequenceRoundTrip(s, "", [0], f, rest);
    assert [] + [0] == [0];
  }

  /** SD with more than one parameter, or with a prefix, is something else and does nothing here. */
  lemma LongScrollDown(s: State, ps: seq<nat>)
    requires Ready(s) && |ps| >= 2
    ensures Run(s, Sequence("", ps, 'T')).buf == s.buf
  {
    hide Writing, Run, BufferOk;
    OneSequence(s, "", ps, 'T');
    ExecutingShape(s, "", ps);
  }

  /** Of several parameters an editing command other than SD uses the first. */
  lemma FurtherParameters(s: State, f: char, n: nat, more: seq<nat>)
    requires Ready(s) && IsEdit(f) && f != 'T' && HasRoom(s, f, n)
    ensures Run(s, Sequence("", [n] + more, f)).buf == Run(s, Command(n, f)).buf
    ensures Run(s, Sequence("", [n] + more, f)).paint == Run(s, Command(n, f)).paint
  {
    hide Writing, Run, Sequence, Edit, Move, Set, SetModes, ResetModes;
    OneSequence(s, "", [n] + more, f);
    OneSequence(s, "", [n], f);
    ExecutingShape(s, "", [n] + more);
    ExecutingShape(s, "", [n]);
    FirstParameter(s, f, n, more);
  }

  lemma FirstParameter(s: State, f: char, n: nat, more: seq<nat>)
    requires Ready(s) && f != 'T'
    requires Writing(s.(parser := Parser(Normal, [n] + more, 0, "", "")))
    requires Writing(s.(parser := Parser(Normal, [n], 0, "", "")))
    ensures var t, u := Edit(s.(parser := Parser(Normal, [n] + more, 0, "", "")), f, [n] + more),
                        Edit(s.(parser := Parser(Normal, [n], 0, "", "")), f, [n]);
            t.buf == u.buf && t.paint == u.paint
  {
    hide Writing, Screen.InsertLines, Screen.DeleteLines, Screen.ScrollUp, Screen.ScrollDown,
      Screen.InsertChars, Screen.DeleteChars, Screen.EraseChars, RepeatChar, EraseInDisplay, EraseInLine;
    assert ([n] + more)[0] == n;
  }

  /** The damage range has grown by rows first to last, and no row element has changed. */
  predicate Damages(p: Paint, q: Paint, first: int, last: int) {
    q == Paint(Min(p.start, Min(first, last)), Max(p.end, Max(first, last)), p.children)
  }

  /** What ED and EL report. */
  lemma EraseDamage(s: State, n: nat)
    requires Ready(s)
    ensures var y, p := s.buf.y, s.paint;
            && (n == 0 ==> Damages(p, Run(s, Command(n, 'J')).paint, y, s.rows - 1))
            && (n == 1 ==> Damages(p, Run(s, Command(n, 'J')).paint, 0, y))
            && (n == 2 ==> Damages(p, Run(s, Command(n, 'J')).paint, 0, s.rows - 1))
            && (n <= 2 ==> Damages(p, Run(s, Command(n, 'K')).paint, y, y))
            && (n > 2 ==> Run(s, Command(n, 'J')).paint == p && Run(s, Command(n, 'K')).paint == p)
  {
    hide Writing, Run, Command;
    CommandPaint(s, 'J', n);
    CommandPaint(s, 'K', n);
  }

  /** What IL, DL, SU and SD report. */
  lemma ShiftDamage(s: State, n: nat)
    requires Ready(s)
    ensures Damages(s.paint, Run(s, Command(n, 'L')).paint, s.buf.y, s.buf.scrollBottom)
    ensures Damages(s.paint, Run(s, Command(n, 'M')).paint, s.buf.y, s.buf.scrollBottom)
    ensures Damages(s.paint, Run(s, Command(n, 'S')).paint, s.buf.scrollTop, s.buf.scrollBottom)
    ensures Damages(s.paint, Run(s, Command(n, 'T')).paint, s.buf.scrollTop, s.buf.scrollBottom)
  {
    hide Writing, Run, Command;
    CommandPaint(s, 'L', n);
    CommandPaint(s, 'M', n);
    CommandPaint(s, 'S', n);
    CommandPaint(s, 'T', n);
  }

  lemma CommandPaint(s: State, f: char, n: nat)
    requires Ready(s) && IsEdit(f) && HasRoom(s, f, n)
    ensures Run(s, Command(n, f)).paint == Damaged(s.paint, EditDamage(s, f, [n]))
  {
    hide Writing, Run, Sequence, EditBuffer, EditedBuffer, Damaged;
    ExecutingShape(s, "", [n]);
    EditRun(s, f, n, "");
    assert Sequence("", [n], f) + "" == Sequence("", [n], f);
    RunEnds(Edited(s, f, n));
  }

  /** ICH, DCH, ECH and REP report nothing. */
  lemma SilentCommands(s: State, f: char, n: nat)
    requires Ready(s) && (f == '@' || f == 'P' || f == 'X' || f == 'b') && HasRoom(s, f, n)
    ensures Run(s, Command(n, f)).paint == s.paint
  {
    hide Writing, Run, Sequence;
    CommandPaint(s, f, n);
  }
}
