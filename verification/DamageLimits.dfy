/**
 Where damage tracking stops being right: families of texts on which `write` can leave a stale row, each with the
 exact condition, read off the state before the call, under which it does not.
 */
module DamageLimits {
  import opened Options
  import opened Shifts
  import opened Attributes
  import opened Rendering
  import opened Decoding
  import opened Screen
  import opened Emulator
  import opened Shape
  import opened Damage
  import opened DamageExact
  import opened ControlSequences
  import opened SmallTexts
  import opened Resizing

  /** How a line of the screen looks without a cursor. */
  ghost function Looks(s: State, line: Line): string
    requires Writing(s) && LineOk(line, s.cols)
  {
    RenderLine(s.env.palette, line, s.cols, -1)
  }

  lemma PlainLooks(s: State, r: State, k: nat)
    requires Writing(s) && Writing(r) && r.env == s.env && r.cols == s.cols && r.rows == s.rows && k < s.rows
    ensures 0 <= r.buf.ybase + k < |r.buf.lines| && LineOk(VisibleLine(r.buf, k), s.cols)
    ensures Plain(r, k) == Looks(s, VisibleLine(r.buf, k))
  {
    hide PaletteOk, AttrOk, RenderLine;
  }

  lemma SamePlain(s: State, t: State, j: nat)
    requires Writing(s) && Writing(t) && j < s.rows == t.rows && s.cols == t.cols && s.env == t.env
    requires 0 <= s.buf.ybase + j < |s.buf.lines| && 0 <= t.buf.ybase + j < |t.buf.lines|
    requires VisibleLine(s.buf, j) == VisibleLine(t.buf, j)
    ensures Plain(s, j) == Plain(t, j)
  {
    hide Writing, RenderLine;
  }

  // ---------------------------------------------------------------- edits that report nothing

  /** Moves to row k, edits it with a command that reports nothing, and moves back. */
  function Detour(s: State, k: nat, c: nat, f: char, n: nat): string
    requires 0 <= s.buf.x && 0 <= s.buf.y
  {
    Goto(c, k) + (Sequence("", [n], f) + Goto(s.buf.x, s.buf.y))
  }

  /** The buffer with row k edited at column c. */
  function EditedThere(s: State, k: nat, c: nat, f: char, n: nat): Buffer
    requires BufferOk(s.buf.(x := c, y := k), s.cols, s.rows, s.env.scrollback)
  {
    EditBuffer(s.buf.(x := c, y := k), s.cols, s.rows, s.env.scrollback, s.curAttr, "", f, [n])
  }

  /** What the commands ask for: ICH, DCH, ECH on the screen, REP with room for its copies. */
  predicate CanDetour(s: State, k: nat, c: nat, f: char, n: nat) {
    k < s.rows && c < s.cols && IsUnreported(f) && (f == 'b' ==> c + Max(1, n) <= s.cols)
  }

  lemma UnreportedRun(s: State, f: char, n: nat, rest: string)
    requires Ready(s) && IsUnreported(f) && HasRoom(s, f, n)
    ensures BufferOk(s.buf, s.cols, s.rows, s.env.scrollback)
    ensures var t := s.(buf := EditBuffer(s.buf, s.cols, s.rows, s.env.scrollback, s.curAttr, "", f, [n]),
                        parser := Parser(Normal, [n], 0, "", ""));
            Ready(t) && Run(s, Sequence("", [n], f) + rest) == Run(t, rest)
  {
    hide Writing, BufferOk, EditBuffer, Sequence;
    CursorInside(s);
    EditRun(s, f, n, rest);
    ExecutingShape(s, "", [n]);
  }

  /** Where the detour ends: the row is edited, and the rest is as it was. */
  lemma DetourRun(s: State, k: nat, c: nat, f: char, n: nat)
    requires Ready(s) && s.buf.x < s.cols && CanDetour(s, k, c, f, n)
    ensures 0 <= s.buf.x && 0 <= s.buf.y && BufferOk(s.buf.(x := c, y := k), s.cols, s.rows, s.env.scrollback)
    ensures var r := Run(s, Detour(s, k, c, f, n));
            Writing(r) && r == s.(buf := EditedThere(s, k, c, f, n).(x := s.buf.x, y := s.buf.y), parser := r.parser)
  {
    hide Writing, BufferOk, EditBuffer, Goto, Sequence;
    CursorInside(s);
    GotoRun(s, c, k, Sequence("", [n], f) + Goto(s.buf.x, s.buf.y));
    var t := Gone(s, c, k);
    CursorInside(t);
    UnreportedRun(t, f, n, Goto(s.buf.x, s.buf.y));
    var u := t.(buf := EditedThere(s, k, c, f, n), parser := Parser(Normal, [n], 0, "", ""));
    GotoRun(u, s.buf.x, s.buf.y, "");
    assert Goto(s.buf.x, s.buf.y) + "" == Goto(s.buf.x, s.buf.y);
    RunEnds(Gone(u, s.buf.x, s.buf.y));
  }

  /** The edit changes only the row it is in. */
  lemma EditedRowOnly(s: State, k: nat, c: nat, f: char, n: nat, j: nat)
    requires Writing(s) && CanDetour(s, k, c, f, n) && j < s.rows && j != k
    ensures BufferOk(s.buf.(x := c, y := k), s.cols, s.rows, s.env.scrollback)
    ensures var b := EditedThere(s, k, c, f, n);
            |b.lines| == |s.buf.lines| && b.ybase == s.buf.ybase && b.ydisp == s.buf.ydisp
            && VisibleLine(b, j) == VisibleLine(s.buf, j)
  {
    CursorShape(s.buf, s.buf.(x := c, y := k), s.cols, s.rows, s.env.scrollback);
    hide LineOk, PaletteOk, AttrOk, ShiftDown, ShiftUp, Fill;
  }

  /**
   ICH, DCH, ECH and REP report no damage. A `write` that makes one of them on another row than the cursor's own and
   moves back leaves the page right if and only if the edited row looks like the row before it was edited.
   */
  lemma DetourInSync(s: State, k: nat, c: nat, f: char, n: nat)
    requires Ready(s) && InSync(s) && s.buf.x < s.cols && CanDetour(s, k, c, f, n) && k != s.buf.y
    ensures 0 <= s.buf.x && 0 <= s.buf.y && BufferOk(s.buf.(x := c, y := k), s.cols, s.rows, s.env.scrollback)
    ensures var b := EditedThere(s, k, c, f, n);
            0 <= b.ybase + k < |b.lines| && LineOk(VisibleLine(b, k), s.cols)
    ensures var t, b := Write(s, Detour(s, k, c, f, n)), EditedThere(s, k, c, f, n);
            Writing(t) && (InSync(t) <==> Looks(s, VisibleLine(b, k)) == Plain(s, k))
  {
    hide Writing, EditedThere, RenderRow, Goto, Sequence, Run, Finish, Plain, Looks, LineOk;
    CursorInside(s);
    BegunStill(s);
    var s0 := Begin(s);
    DetourRun(s0, k, c, f, n);
    var r := Run(s0, Detour(s, k, c, f, n));
    SyncIsQuiet(s0);
    FinishExact(s0, r);
    forall j | 0 <= j < s.rows && j != k
      ensures Plain(r, j) == Plain(s0, j)
    {
      EditedRowOnly(s0, k, c, f, n, j);
      SamePlain(s0, r, j);
    }
    SameEdited(s, s0, k, c, f, n);
    PlainLooks(s, r, k);
    SamePlain(s, s0, k);
  }

  lemma SameEdited(s: State, s0: State, k: nat, c: nat, f: char, n: nat)
    requires BufferOk(s.buf.(x := c, y := k), s.cols, s.rows, s.env.scrollback) && s0 == s.(paint := s0.paint)
    ensures EditedThere(s0, k, c, f, n) == EditedThere(s, k, c, f, n)
  {
    hide EditBuffer;
  }

  /** Column c of a row rendered without a cursor shows its own cell. */
  lemma LooksShow(s: State, line: Line, c: nat)
    requires Writing(s) && LineOk(line, s.cols) && c < s.cols
    ensures PaletteOk(s.env.palette) && c < |line| && MarkOk(line[c].attr)
    ensures var shown := Decode(Looks(s, line));
            shown.Some? && c < |shown.value| && shown.value[c] == Look(s.env.palette, line[c])
  {
    hide PaletteOk, AttrOk, RenderLine, Decode, Look;
    RenderedLineDecodes(s.env.palette, line, s.cols, -1);
  }

  lemma ErasedCell(s: State, k: nat, c: nat)
    requires Writing(s) && k < s.rows && c < s.cols
    ensures BufferOk(s.buf.(x := c, y := k), s.cols, s.rows, s.env.scrollback)
    ensures var b := EditedThere(s, k, c, 'X', 1);
            0 <= b.ybase + k < |b.lines| && c < |VisibleLine(b, k)| && VisibleLine(b, k)[c] == Blank(s.curAttr)
  {
    CursorShape(s.buf, s.buf.(x := c, y := k), s.cols, s.rows, s.env.scrollback);
    assert LineOk(VisibleLine(s.buf, k), s.cols) by { hide PaletteOk, AttrOk, EditedThere; }
    hide PaletteOk, AttrOk;
  }

  /** So an erased cell that looked different is still on the page after such a `write`. */
  lemma ErasedCellStays(s: State, k: nat, c: nat)
    requires Ready(s) && InSync(s) && s.buf.x < s.cols && k < s.rows && c < s.cols && k != s.buf.y
    requires 0 <= s.buf.ybase + k < |s.buf.lines| && c < |VisibleLine(s.buf, k)|
    requires MarkOk(VisibleLine(s.buf, k)[c].attr) && MarkOk(s.curAttr)
    requires Look(s.env.palette, VisibleLine(s.buf, k)[c]) != Look(s.env.palette, Blank(s.curAttr))
    ensures 0 <= s.buf.x && 0 <= s.buf.y
    ensures var t := Write(s, Detour(s, k, c, 'X', 1)); Writing(t) && !InSync(t)
  {
    hide Writing, Run, Finish, Plain, Detour, Begin, Looks, EditedThere, LineOk, Decode, Look;
    DetourInSync(s, k, c, 'X', 1);
    ErasedCell(s, k, c);
    PlainLooks(s, s, k);
    LooksShow(s, VisibleLine(s.buf, k), c);
    LooksShow(s, VisibleLine(EditedThere(s, k, c, 'X', 1), k), c);
  }

  // ---------------------------------------------------------------- RI above the top margin

  /** Moves to row k, makes a reverse index there, and moves back. */
  function Rise(s: State, k: nat): string
    requires 0 <= s.buf.x && 0 <= s.buf.y
  {
    Goto(0, k) + ([ESC, 'M'] + Goto(s.buf.x, s.buf.y))
  }

  /** The buffer with the rows from k to the bottom margin moved down. */
  function Risen(s: State, k: nat): Buffer
    requires BufferOk(s.buf.(x := 0, y := k), s.cols, s.rows, s.env.scrollback)
  {
    ReverseIndex(s.buf.(x := 0, y := k), s.cols, s.rows, s.env.scrollback, s.curAttr)
  }

  lemma RiseRun(s: State, k: nat)
    requires Ready(s) && s.buf.x < s.cols && k <= s.buf.scrollTop
    ensures 0 <= s.buf.x && 0 <= s.buf.y && BufferOk(s.buf.(x := 0, y := k), s.cols, s.rows, s.env.scrollback)
    ensures var r := Run(s, Rise(s, k));
            && Writing(r)
            && r == Touch(Touch(s.(buf := Risen(s, k).(x := s.buf.x, y := s.buf.y), parser := r.parser),
                                s.buf.scrollTop), s.buf.scrollBottom)
  {
    hide Writing, BufferOk, ReverseIndex, Goto, Run;
    CursorInside(s);
    GotoRun(s, 0, k, [ESC, 'M'] + Goto(s.buf.x, s.buf.y));
    var t := Gone(s, 0, k);
    CursorInside(t);
    EscapeRun(t, 'M', Goto(s.buf.x, s.buf.y));
    var u := ReverseIndexLine(t);
    RisenShape(s, k);
    GotoRun(u, s.buf.x, s.buf.y, "");
    assert Goto(s.buf.x, s.buf.y) + "" == Goto(s.buf.x, s.buf.y);
    RunEnds(Gone(u, s.buf.x, s.buf.y));
  }

  /** At or above the top margin RI moves the rows from the cursor to the bottom margin and nothing else. */
  lemma RisenShape(s: State, k: nat)
    requires Writing(s) && k <= s.buf.scrollTop
    ensures BufferOk(s.buf.(x := 0, y := k), s.cols, s.rows, s.env.scrollback)
    ensures var b := Risen(s, k);
            && b == s.buf.(lines := b.lines, x := 0, y := k) && |b.lines| == |s.buf.lines| == s.buf.ybase + s.rows
            && 0 <= s.buf.ybase && 1 <= s.cols && LineOk(BlankLine(s.cols, s.curAttr), s.cols)
  {
    CursorShape(s.buf, s.buf.(x := 0, y := k), s.cols, s.rows, s.env.scrollback);
    BlankIsOk(s.cols, s.curAttr);
    hide LineOk, PaletteOk, AttrOk, BlankLine;
  }

  /** All rows from k up to, not including, row end look blank in the current attribute. */
  ghost predicate LookBlank(s: State, k: nat, end: int)
    requires Writing(s) && LineOk(BlankLine(s.cols, s.curAttr), s.cols)
  {
    forall j | k <= j < end && j < s.rows :: Plain(s, j) == Looks(s, BlankLine(s.cols, s.curAttr))
  }

  lemma BlankRow(s: State, k: nat, end: int, j: nat)
    requires Writing(s) && LineOk(BlankLine(s.cols, s.curAttr), s.cols)
    requires LookBlank(s, k, end) && k <= j < end && j < s.rows
    ensures Plain(s, j) == Looks(s, BlankLine(s.cols, s.curAttr))
  {
    hide Writing, Plain, Looks, LineOk, BlankLine;
  }

  /** Each row looks like the one above it, and the first one blank: all look blank. */
  lemma {:induction false} BlankDown(s: State, k: nat, end: int, j: nat)
    requires Writing(s) && 1 <= s.cols && LineOk(BlankLine(s.cols, s.curAttr), s.cols) && k <= j < end <= s.rows
    requires Plain(s, k) == Looks(s, BlankLine(s.cols, s.curAttr))
    requires forall i | k < i < end :: Plain(s, i) == Plain(s, i - 1)
    ensures Plain(s, j) == Looks(s, BlankLine(s.cols, s.curAttr))
    decreases j
  {
    hide Writing, Plain, Looks, LineOk, BlankLine;
    if k < j {
      BlankDown(s, k, end, j - 1);
    }
  }

  /**
   RI above the top margin moves the rows from the cursor on, but reports only the region. A `write` that makes one in
   row k and moves back leaves the page right if and only if the rows from k to the margin, or to the cursor's own row
   if that comes first, all look blank in the current attribute.
   */
  lemma RiseInSync(s: State, k: nat)
    requires Ready(s) && InSync(s) && s.buf.x < s.cols && k <= s.buf.scrollTop
    ensures 0 <= s.buf.x && 0 <= s.buf.y && 0 <= s.cols && LineOk(BlankLine(s.cols, s.curAttr), s.cols)
    ensures var t := Write(s, Rise(s, k));
            Writing(t) && (InSync(t) <==> LookBlank(s, k, Min(s.buf.scrollTop, s.buf.y)))
  {
    hide Writing, Risen, RenderRow, Goto, Run, Finish, Plain, Looks, LineOk, BlankLine, Begin;
    CursorInside(s);
    BegunStill(s);
    var s0, end := Begin(s), Min(s.buf.scrollTop, s.buf.y);
    RisenShape(s0, k);
    RiseRun(s0, k);
    var r := Run(s0, Rise(s, k));
    SyncIsQuiet(s0);
    FinishExact(s0, r);
    forall j | 0 <= j < s.rows
      ensures Plain(s0, j) == Plain(s, j)
      ensures j < k || s.buf.scrollBottom < j ==> Plain(r, j) == Plain(s, j)
      ensures k < j <= s.buf.scrollBottom ==> Plain(r, j) == Plain(s, j - 1)
      ensures j == k ==> Plain(r, j) == Looks(s, BlankLine(s.cols, s.curAttr))
    {
      RisenRow(s, s0, r, k, j);
    }
    assert forall j | 0 <= j < s.rows :: Repainted(r, j) <==> end <= j <= Max(s.buf.y, s.buf.scrollBottom);
    if LookBlank(s, k, end) {
      forall j | 0 <= j < s.rows && !Repainted(r, j)
        ensures Plain(r, j) == Plain(s0, j)
      {
        if k < j < end {
          BlankRow(s, k, end, j - 1);
          BlankRow(s, k, end, j);
        } else if j == k {
          BlankRow(s, k, end, j);
        }
      }
    } else {
      var j :| k <= j < end && j < s.rows && Plain(s, j) != Looks(s, BlankLine(s.cols, s.curAttr));
      if forall i | k <= i < end :: Plain(r, i) == Plain(s0, i) {
        BlankDown(s, k, end, j);
      }
      var i :| k <= i < end && Plain(r, i) != Plain(s0, i);
      assert !Repainted(r, i);
    }
  }

  lemma RisenRow(s: State, s0: State, r: State, k: nat, j: nat)
    requires Writing(s) && Writing(s0) && s0 == s.(paint := s0.paint) && k <= s.buf.scrollTop && j < s.rows
    requires BufferOk(s0.buf.(x := 0, y := k), s0.cols, s0.rows, s0.env.scrollback)
    requires Writing(r) && r.env == s.env && r.cols == s.cols && r.rows == s.rows
    requires r.buf == Risen(s0, k).(x := r.buf.x, y := r.buf.y)
    ensures 1 <= s.cols && LineOk(BlankLine(s.cols, s.curAttr), s.cols)
    ensures Plain(s0, j) == Plain(s, j)
    ensures j < k || s.buf.scrollBottom < j ==> Plain(r, j) == Plain(s, j)
    ensures k < j <= s.buf.scrollBottom ==> Plain(r, j) == Plain(s, j - 1)
    ensures j == k ==> Plain(r, j) == Looks(s, BlankLine(s.cols, s.curAttr))
  {
    hide Writing, Risen, Plain, Looks, LineOk, BlankLine;
    CursorInside(s);
    RisenShape(s0, k);
    ScreenInside(s);
    PlainLooks(s, s0, j);
    PlainLooks(s, s, j);
    PlainLooks(s, r, j);
    RisenLine(s0, k, j);
    assert r.buf.lines == Risen(s0, k).lines && r.buf.ybase == Risen(s0, k).ybase;
    if k < j <= s.buf.scrollBottom {
      PlainLooks(s, s, j - 1);
      assert VisibleLine(r.buf, j) == VisibleLine(s.buf, j - 1);
    }
  }

  lemma RisenLine(s: State, k: nat, j: nat)
    requires Writing(s) && k <= s.buf.scrollTop && j < s.rows
    requires BufferOk(s.buf.(x := 0, y := k), s.cols, s.rows, s.env.scrollback)
    ensures var b := Risen(s, k);
            && 0 <= s.buf.ybase == b.ybase && |b.lines| == |s.buf.lines| == s.buf.ybase + s.rows && 0 <= s.cols
            && VisibleLine(b, j)
               == if j < k || s.buf.scrollBottom < j then VisibleLine(s.buf, j)
                  else if j == k then BlankLine(s.cols, s.curAttr) else VisibleLine(s.buf, j - 1)
  {
    hide Writing, BufferOk, BlankLine, ShiftDown;
    CursorInside(s);
    RisenShape(s, k);
    var first, end, blank := s.buf.ybase + k, s.buf.ybase + s.buf.scrollBottom + 1, BlankLine(s.cols, s.curAttr);
    assert Risen(s, k).lines == ShiftDown(s.buf.lines, first, end, 1, blank);
    assert Risen(s, k).lines[s.buf.ybase + j] == ShiftDown(s.buf.lines, first, end, 1, blank)[s.buf.ybase + j];
  }

  // ---------------------------------------------------------------- repaints in the middle of `write`

  /** Whether a rendering highlights the cursor's cell. */
  predicate CursorShown(s: State) {
    s.cursorState && !s.cursorHidden && s.buf.x < s.cols
  }

  /** A highlighted cell never looks like the cell itself. */
  lemma HighlightShows(p: Palette, c: Cell)
    requires PaletteOk(p) && CellOk(c)
    ensures Look(p, Cell(CURSOR_MARK, c.ch)) != Look(p, c)
  {
    hide Declarations;
    assert CursorTag()[5] == 'c' && StyledTag(Declarations(p, c.attr))[5] == 's';
  }

  lemma CursorRendersDifferently(s: State)
    requires Writing(s) && CursorShown(s)
    ensures RenderRow(s, s.buf.y) != Plain(s, s.buf.y)
  {
    hide PaletteOk, AttrOk, RenderLine, Decode, Look;
    var p, line, x := s.env.palette, VisibleLine(s.buf, s.buf.y), s.buf.x;
    RenderedLineDecodes(p, line, s.cols, x);
    RenderedLineDecodes(p, line, s.cols, -1);
    HighlightShows(p, line[x]);
    var marked, plain := Decode(RenderLine(p, line, s.cols, x)), Decode(RenderLine(p, line, s.cols, -1));
    assert marked.value[x] != plain.value[x];
    assert RenderRow(s, s.buf.y) == RenderLine(p, line, s.cols, x);
  }

  lemma UnseenCursor(s: State)
    requires Writing(s) && !CursorShown(s)
    ensures RenderRow(s, s.buf.y) == Plain(s, s.buf.y)
  {
    hide PaletteOk, AttrOk, RenderFrom;
    var line := VisibleLine(s.buf, s.buf.y);
    assert s.buf.x == s.cols ==> Marked(line, s.cols, s.buf.x) == Marked(line, s.cols, -1);
  }

  /**
   A page that was right at e, painted with the cursor, is right after the cursor has gone to row y and `write` has
   ended if and only if no cursor was shown or its row is rendered again.
   */
  lemma GoneExact(e: State, x: nat, y: nat)
    requires Ready(e) && InSync(e) && x < e.cols && y < e.rows
    ensures var t := Finish(Gone(e, x, y));
            && Writing(t)
            && (InSync(t) <==> !CursorShown(e) || Min(e.paint.start, y) <= e.buf.y <= Max(e.paint.end, y))
  {
    hide Writing, RenderRow, Plain, Finish, CursorShown;
    CursorInside(e);
    GotoExecuted(e, x, y);
    var g := Gone(e, x, y);
    var t := Finish(g);
    FinishShape(g);
    DamageExact.FinishedRow(g, 0);
    forall j | 0 <= j < e.rows
      ensures t.paint.children[j] == RenderRow(t, j)
         <==> (j != e.buf.y || !CursorShown(e) || Min(e.paint.start, y) <= j <= Max(e.paint.end, y))
    {
      GoneRow(e, x, y, j);
    }
    assert t.paint.children[e.buf.y] == RenderRow(t, e.buf.y)
      <==> (!CursorShown(e) || Min(e.paint.start, y) <= e.buf.y <= Max(e.paint.end, y));
  }

  lemma GoneRow(e: State, x: nat, y: nat, j: nat)
    requires Ready(e) && InSync(e) && y < e.rows && j < e.rows && Writing(Gone(e, x, y))
    ensures var t := Finish(Gone(e, x, y));
            && Renderable(t) && |t.paint.children| == t.rows == e.rows
            && (t.paint.children[j] == RenderRow(t, j)
                <==> (j != e.buf.y || !CursorShown(e) || Min(e.paint.start, y) <= j <= Max(e.paint.end, y)))
  {
    hide BufferOk, PaletteOk, AttrOk, RenderRow, Plain, Finish, CursorShown;
    var g := Gone(e, x, y);
    DamageExact.FinishedRow(g, j);
    if !Repainted(g, j) {
      RowWithoutCursor(g, j);
      GonePlain(e, x, y, j);
      if j != e.buf.y {
        RowWithoutCursor(e, j);
      } else if CursorShown(e) {
        CursorRendersDifferently(e);
      } else {
        UnseenCursor(e);
      }
    }
  }

  lemma GonePlain(e: State, x: nat, y: nat, j: nat)
    requires Writing(e) && Writing(Gone(e, x, y)) && j < e.rows
    ensures Plain(Gone(e, x, y), j) == Plain(e, j)
  {
    hide BufferOk, PaletteOk, AttrOk, RenderLine;
  }

  /**
   A `write` that enters the alternate screen and then moves the cursor to row y leaves the page right if and only if
   it began in row 0 or ends in row 0. Otherwise the cursor's old highlight stays in the corner.
   */
  lemma EnteringLeavesHighlight(s: State, p: nat, x: nat, y: nat)
    requires Ready(s) && InSync(s) && s.normal.None? && IsAlternate(p) && x < s.cols && y < s.rows
    ensures var t := Write(s, SwitchOn(p) + Goto(x, y)); Writing(t) && (InSync(t) <==> s.buf.y == 0 || y == 0)
  {
    hide Writing, RenderRow, Goto, Sequence, Run, Finish, EnterAlternate, InSync;
    CursorInside(s);
    BegunStill(s);
    var s0 := Begin(s);
    EnterRun(s0, p, Goto(x, y));
    Entered(s0);
    var e := EnterAlternate(s0).(parser := INITIAL_PARSER);
    GotoRun(e, x, y, "");
    assert Goto(x, y) + "" == Goto(x, y);
    RunEnds(Gone(e, x, y));
    GoneExact(e, x, y);
  }

  /**
   A `write` that leaves the alternate screen and then moves the cursor to row y leaves the page right if and only if
   no cursor shows at its saved place, or the saved row lies between the row in which the text began and row y.
   */
  lemma LeavingLeavesHighlight(s: State, p: nat, x: nat, y: nat)
    requires Ready(s) && InSync(s) && s.normal.Some? && IsAlternate(p) && x < s.cols && y < s.rows
    ensures var t, saved := Write(s, SwitchOff(p) + Goto(x, y)), s.normal.value;
            && Writing(t)
            && (InSync(t) <==> s.cursorHidden || saved.x >= s.cols || Min(s.buf.y, y) <= saved.y <= Max(s.buf.y, y))
  {
    hide Writing, RenderRow, Goto, Sequence, Run, Finish, InSync, Left;
    CursorInside(s);
    BegunStill(s);
    var s0 := Begin(s);
    LeaveRun(s0, p, Goto(x, y));
    LeftShows(s0, p);
    var e := Left(s0, p);
    GotoRun(e, x, y, "");
    assert Goto(x, y) + "" == Goto(x, y);
    RunEnds(Gone(e, x, y));
    GoneExact(e, x, y);
  }

  // ---------------------------------------------------------------- the width modes

  /** Whether mode 3 is going to resize, and the width it resizes to. */
  predicate Widens(s: State, f: char) {
    f == 'h' || (s.cols == 132 && s.savedCols.Some?)
  }

  function NewWidth(s: State, f: char): int {
    if f == 'h' then 132 else if Widens(s, f) then s.savedCols.value else s.cols
  }

  /** Moves to row cy, sets or resets mode 3 there, and moves on to row y. */
  function WidenAndGo(f: char, cx: nat, cy: nat, x: nat, y: nat): string {
    Goto(cx, cy) + (Sequence("?", [3], f) + Goto(x, y))
  }

  /** The state after mode 3: painted with the cursor in its row if it resizes, and showing the same if not. */
  lemma Widened(s: State, f: char)
    requires Ready(s) && (f == 'h' || f == 'l')
    ensures var e := Changed(s, f, 3);
            && Ready(e) && e.buf.y == s.buf.y && SameRange(s, e) && e.rows == s.rows && e.cols == NewWidth(s, f)
            && e.cursorState == s.cursorState && e.cursorHidden == s.cursorHidden
            && (Widens(s, f) ==> InSync(e) && e.buf.x == Min(s.buf.x, e.cols - 1))
            && (!Widens(s, f) ==> SameScreen(s, e))
  {
    hide Writing, Valid, Resize, RenderRow;
    var u := s.(parser := Parser(Normal, [3], 0, "", "?"));
    ExecutingShape(s, "?", [3]);
    ChangeRun(s, f, 3, "");
    CursorInside(u);
    WideValid(u);
    if Widens(s, f) {
      WideRow(u, f);
      PrefixInSync(ChangeMode(u, f, 3));
      if f == 'h' {
        ResizeWidth(u.(savedCols := Some(u.cols)), 132, u.rows);
      } else {
        SavedIsWide(u);
        ResizeWidth(u, u.savedCols.value, u.rows);
      }
    }
  }

  lemma SavedIsWide(s: State)
    requires Writing(s) && s.savedCols.Some?
    ensures 1 <= s.savedCols.value && 1 <= s.rows
  {
    hide BufferOk, PaletteOk, AttrOk;
    CursorInside(s);
  }

  lemma ResizeWidth(s: State, x: int, y: int)
    requires Valid(s) && 1 <= x && 1 <= y
    ensures var r := Resize(s, x, y);
            && r.cols == x && r.rows == y && r.buf.x == Min(s.buf.x, x - 1)
            && r.cursorState == s.cursorState && r.cursorHidden == s.cursorHidden
  {
    hide Valid, Resize;
    ResizePlaces(s, x, y);
    ResizeKeepsOverlap(s, x, y);
  }

  /**
   A `write` that sets or resets mode 3 in row cy and then moves the cursor to row y leaves the page right if and only
   if nothing is resized, no cursor shows, or row cy lies between the row in which the text began and row y.
   */
  lemma WideningLeavesHighlight(s: State, f: char, cx: nat, cy: nat, x: nat, y: nat)
    requires Ready(s) && InSync(s) && (f == 'h' || f == 'l') && cx < s.cols && cy < s.rows
    requires x < NewWidth(s, f) && y < s.rows
    ensures var t := Write(s, WidenAndGo(f, cx, cy, x, y));
            && Writing(t)
            && (InSync(t) <==>
                  || !Widens(s, f) || !s.cursorState || s.cursorHidden
                  || Min(s.buf.y, y) <= cy <= Max(s.buf.y, y))
  {
    hide Writing, RenderRow, Goto, Sequence, Run, Finish, InSync, Changed;
    CursorInside(s);
    BegunStill(s);
    var s0 := Begin(s);
    GotoRun(s0, cx, cy, Sequence("?", [3], f) + Goto(x, y));
    var t := Gone(s0, cx, cy);
    ChangeRun(t, f, 3, Goto(x, y));
    Widened(t, f);
    var e := Changed(t, f, 3);
    GotoRun(e, x, y, "");
    assert Goto(x, y) + "" == Goto(x, y);
    RunEnds(Gone(e, x, y));
    if Widens(s, f) {
      GoneExact(e, x, y);
    } else {
      StillInSync(s0, Gone(e, x, y));
    }
  }

  /** Nothing changed but the cursor's place, which both ends of the text render again. */
  lemma StillInSync(s: State, r: State)
    requires Writing(s) && InSync(s) && Writing(r) && SameScreen(s, r) && s.paint.start == s.buf.y == s.paint.end
    ensures Writing(Finish(r)) && InSync(Finish(r))
  {
    hide Writing, Finish, Plain, RenderRow;
    SyncIsQuiet(s);
    ScreenInside(s);
    ScreenInside(r);
    FinishExact(s, r);
    forall k | 0 <= k < s.rows
      ensures Plain(r, k) == Plain(s, k)
    {
      SamePlain(s, r, k);
    }
  }
}
