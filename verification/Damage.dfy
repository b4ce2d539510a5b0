/**
 Damage tracking is a correct cache. `write` repaints only the rows in its damage range;
 on tracked streams every row element then equals a rendering from scratch.
 */
module Damage {
  import opened Options
  import opened Shifts
  import opened Attributes
  import opened Rendering
  import opened TabStops
  import opened Screen
  import opened Emulator
  import opened Shape

  /** Every row element shows what a rendering from scratch would show. */
  ghost predicate InSync(s: State)
    requires Renderable(s)
  {
    forall k | 0 <= k < s.rows :: s.paint.children[k] == RenderRow(s, k)
  }

  predicate InRange(s: State, k: int) {
    s.paint.start <= k <= s.paint.end
  }

  /** The text of row k without a cursor. */
  ghost function Plain(s: State, k: int): string
    requires Writing(s) && 0 <= k < s.rows
  {
    RenderLine(s.env.palette, VisibleLine(s.buf, k), s.cols, -1)
  }

  /** The invariant inside `write`: rows outside the damage range are painted, and without a cursor. */
  ghost predicate Quiet(s: State)
    requires Writing(s)
  {
    forall k | 0 <= k < s.rows && !InRange(s, k) :: s.paint.children[k] == Plain(s, k)
  }

  /** From s to s' the damage range grows and covers every visible row that changed. */
  ghost predicate Carries(s: State, s': State)
    requires Writing(s) && Writing(s')
  {
    && s'.env == s.env && s'.cols == s.cols && s'.rows == s.rows
    && s'.paint.children == s.paint.children
    && s'.paint.start <= s.paint.start && s.paint.end <= s'.paint.end
    && forall k | 0 <= k < s.rows && !InRange(s', k) :: VisibleLine(s'.buf, k) == VisibleLine(s.buf, k)
  }

  lemma CarriesQuiet(s: State, s': State)
    requires Writing(s) && Writing(s') && Quiet(s) && Carries(s, s')
    ensures Quiet(s')
  {
    hide LineOk, PaletteOk, AttrOk, RenderLine;
  }

  /** Nothing visible changes and nothing is reported. */
  lemma SameScreenCarries(s: State, s': State)
    requires Writing(s) && Writing(s')
    requires s'.env == s.env && s'.cols == s.cols && s'.rows == s.rows && s'.paint == s.paint
    requires s'.buf.lines == s.buf.lines && s'.buf.ybase == s.buf.ybase
    ensures Carries(s, s')
  {
    hide LineOk, PaletteOk, AttrOk;
  }

  // ---------------------------------------------------------------- which steps are tracked

  /** ICH, DCH, ECH and REP change the cursor's line without reporting it. */
  predicate IsUnreported(f: char) {
    f == '@' || f == 'P' || f == 'X' || f == 'b'
  }

  /** Mode changes that repaint the screen in the middle of `write`. */
  predicate Repaints(prefix: string, f: char, ps: seq<nat>) {
    prefix == "?" && (f == 'h' || f == 'l') && exists p | p in ps :: p == 3 || IsAlternate(p)
  }

  /** The cursor's row after a mode change that repaints everything, highlighting the cursor if it is shown. */
  function RepaintedRow(s: State, f: char, p: nat): Option<int> {
    if s.parser.prefix != "?" then None
    else if p == 3 then (if f == 'h' || (s.cols == 132 && s.savedCols.Some?) then Some(s.buf.y) else None)
    else if IsAlternate(p) && f == 'h' && s.normal.None? then Some(0)
    else if IsAlternate(p) && f == 'l' && s.normal.Some? then Some(s.normal.value.y)
    else None
  }

  function ChangeMode(s: State, f: char, p: nat): (t: State)
    requires Writing(s)
    ensures Writing(t)
  {
    SetModeIsValid(s, p);
    ResetModeIsValid(s, p);
    if f == 'h' then SetMode(s, p) else ResetMode(s, p)
  }

  /** Each parameter that repaints leaves the cursor on a row that will be painted again. */
  predicate TrackedModes(s: State, f: char, ps: seq<nat>)
    requires Writing(s)
    decreases |ps|
  {
    ps != [] ==>
      && (RepaintedRow(s, f, ps[0]).Some? ==> InRange(s, RepaintedRow(s, f, ps[0]).value))
      && TrackedModes(ChangeMode(s, f, ps[0]), f, ps[1..])
  }

  predicate TrackedCsi(s: State, f: char, ps: seq<nat>)
    requires Writing(s)
  {
    && (IsUnreported(f) ==> InRange(s, s.buf.y))
    && (f == 'h' || f == 'l' ==> TrackedModes(s, f, ps))
  }

  lemma PrefixedWriting(s: State, t: State)
    requires Writing(s) && t == s.(parser := t.parser) && t.parser.mode != Charset
    ensures Writing(t)
  {
    CursorInside(s);
    SmallShape(s, s.queue, s.savedX, s.savedY, s.charsets, t.parser, s.title);
  }

  /** The state in which a command runs. */
  function Executing(s: State, ps: seq<nat>): State {
    s.(parser := s.parser.(mode := Normal, params := ps, currentParam := 0))
  }

  /** RI above the top margin reports only the region, though it moves the lines from the cursor on. */
  predicate Tracked(s: State, ch: char)
    requires Writing(s)
  {
    if s.parser.mode == Csi && !IsPrefix(ch) && !IsDigit(ch) && !IsPostfix(ch) && ch != ';' then
      var ps := s.parser.params + [s.parser.currentParam];
      PrefixedWriting(s, Executing(s, ps));
      TrackedCsi(Executing(s, ps), ch, ps)
    else if s.parser.mode == Escaped && ch == 'M' then
      s.buf.y >= s.buf.scrollTop || s.paint.start <= s.buf.y
    else true
  }

  // ---------------------------------------------------------------- scrolling

  /** Visible row k after the region moved up by one row. */
  function Shifted(b: Buffer, cols: int, rows: int, scrollback: int, k: int): Line
    requires BufferOk(b, cols, rows, scrollback) && 0 <= k < rows
  {
    if k < b.scrollTop || b.scrollBottom < k then VisibleLine(b, k)
    else if k == b.scrollBottom then BlankLine(cols, DEF_ATTR)
    else VisibleLine(b, k + 1)
  }

  /** `scroll` moves the region up by one row, history limit or not. */
  lemma ScrollShifts(b: Buffer, cols: int, rows: int, scrollback: int, k: int)
    requires BufferOk(b, cols, rows, scrollback) && scrollback >= 2 && 0 <= k < rows
    ensures var r := Scroll(b, cols, rows, scrollback);
            |r.lines| == r.ybase + rows && 0 <= r.ybase && VisibleLine(r, k) == Shifted(b, cols, rows, scrollback, k)
  {
    hide BufferOk, ScrolledHistory, ShiftUp, BlankLine;
    BufferInside(b, cols, rows, scrollback);
    var visible := ShiftUp(b.lines[b.ybase..], b.scrollTop, b.scrollBottom + 1, 1, BlankLine(cols, DEF_ATTR));
    var h := ScrolledHistory(b, scrollback);
    assert b.lines[b.ybase..][k] == VisibleLine(b, k);
    assert k + 1 < rows ==> b.lines[b.ybase..][k + 1] == VisibleLine(b, k + 1);
    assert visible[k] == Shifted(b, cols, rows, scrollback, k);
    assert (h + visible)[|h| + k] == visible[k];
  }

  lemma ScrollOutsideRegion(s: State, k: int)
    requires Writing(s) && s.buf.y + 1 > s.buf.scrollBottom
    requires Writing(IndexLine(s)) && 0 <= k < s.rows && !InRange(IndexLine(s), k)
    ensures VisibleLine(IndexLine(s).buf, k) == VisibleLine(s.buf, k)
  {
    hide Writing, BufferOk, Scroll, IndexLine;
    CursorInside(s);
    IndexLineIs(s);
    ScrollShifts(s.buf, s.cols, s.rows, s.env.scrollback, k);
  }

  lemma IndexCarries(s: State)
    requires Writing(s) && Writing(IndexLine(s))
    ensures Carries(s, IndexLine(s))
  {
    hide Writing, BufferOk, Scroll, IndexLine;
    IndexLineIs(s);
    var s' := IndexLine(s);
    ScreenInside(s);
    ScreenInside(s');
    if s.buf.y + 1 > s.buf.scrollBottom {
      forall k | 0 <= k < s.rows && !InRange(s', k)
        ensures VisibleLine(s'.buf, k) == VisibleLine(s.buf, k)
      {
        ScrollOutsideRegion(s, k);
      }
    } else {
      SameScreenCarries(s, s');
    }
  }

  lemma ReverseIndexCarries(s: State)
    requires Writing(s) && Writing(ReverseIndexLine(s))
    requires s.buf.y >= s.buf.scrollTop || s.paint.start <= s.buf.y
    ensures Carries(s, ReverseIndexLine(s))
  {
    CursorInside(s);
    hide LineOk, PaletteOk, AttrOk;
  }

  // ---------------------------------------------------------------- editing

  /** The rows an editing command leaves alone: those outside its reported damage, or all but the cursor's. */
  lemma EditTouches(s: State, f: char, ps: seq<nat>, k: int)
    requires Writing(s) && |ps| > 0 && IsEdit(f) && 0 <= k < s.rows
    requires if IsUnreported(f) then k != s.buf.y
             else match EditDamage(s, f, ps)
                  case None => true
                  case Some((first, last)) => k < Min(first, last) || Max(first, last) < k
    ensures var b := EditedBuffer(s, f, ps);
            |b.lines| == |s.buf.lines| && b.ybase == s.buf.ybase && VisibleLine(b, k) == VisibleLine(s.buf, k)
  {
    EditedKeepsView(s, f, ps);
    hide LineOk, PaletteOk, AttrOk;
  }

  lemma EditCarries(s: State, f: char, ps: seq<nat>)
    requires Writing(s) && |ps| > 0 && IsEdit(f) && Writing(Edit(s, f, ps))
    requires IsUnreported(f) ==> InRange(s, s.buf.y)
    ensures Carries(s, Edit(s, f, ps))
  {
    var s' := Edit(s, f, ps);
    EditedKeepsView(s, f, ps);
    assert s'.paint.start <= s.paint.start && s.paint.end <= s'.paint.end && s'.paint.children == s.paint.children;
    forall k | 0 <= k < s.rows && !InRange(s', k)
      ensures VisibleLine(s'.buf, k) == VisibleLine(s.buf, k)
    {
      EditTouches(s, f, ps, k);
    }
    hide Writing, EditedBuffer;
  }

  // ---------------------------------------------------------------- steps

  /** s' shows the same screen and has the same row elements and damage range as s. */
  predicate SameScreen(s: State, s': State) {
    && s'.env == s.env && s'.cols == s.cols && s'.rows == s.rows && s'.paint == s.paint
    && s'.buf.lines == s.buf.lines && s'.buf.ybase == s.buf.ybase
  }

  lemma SameScreenQuiet(s: State, s': State)
    requires Writing(s) && Writing(s') && Quiet(s) && SameScreen(s, s')
    ensures Quiet(s')
  {
    SameScreenCarries(s, s');
    CarriesQuiet(s, s');
  }

  lemma {:induction false} SetModesSameScreen(s: State, ps: seq<nat>)
    requires Writing(s) && !Repaints(s.parser.prefix, 'h', ps)
    ensures SameScreen(s, SetModes(s, ps))
    decreases |ps|
  {
    hide Writing, Resize, EnterAlternate, AllAscii;
    if ps != [] {
      assert ps[0] in ps;
      SetModeIsValid(s, ps[0]);
      var t := SetMode(s, ps[0]);
      assert forall p | p in ps[1..] :: p in ps;
      SetModesSameScreen(t, ps[1..]);
    }
  }

  lemma {:induction false} ResetModesSameScreen(s: State, ps: seq<nat>)
    requires Writing(s) && !Repaints(s.parser.prefix, 'l', ps)
    ensures SameScreen(s, ResetModes(s, ps))
    decreases |ps|
  {
    hide Writing, Resize, LeaveAlternate;
    if ps != [] {
      assert ps[0] in ps;
      ResetModeIsValid(s, ps[0]);
      var t := ResetMode(s, ps[0]);
      assert forall p | p in ps[1..] :: p in ps;
      ResetModesSameScreen(t, ps[1..]);
    }
  }

  predicate SameRange(s: State, t: State) {
    t.paint.start == s.paint.start && t.paint.end == s.paint.end
  }

  lemma RefreshAllInSync(s: State)
    requires Renderable(s)
    ensures Renderable(RefreshAll(s)) && InSync(RefreshAll(s))
  {
    hide BufferOk, PaletteOk, RenderRow;
    var t := RefreshAll(s);
    forall k | 0 <= k < s.rows
      ensures t.paint.children[k] == RenderRow(t, k)
    {
      PaintIrrelevant(s, t, k);
    }
  }

  /** Painting the cursor's row again is enough when only the cursor's visibility changes. */
  lemma SwitchCursorInSync(s: State, on: bool)
    requires Renderable(s) && InSync(s)
    ensures Renderable(SwitchCursor(s, on)) && InSync(SwitchCursor(s, on))
  {
    hide BufferOk, PaletteOk, RenderLine;
    var u, t := s.(cursorState := on), SwitchCursor(s, on);
    forall k | 0 <= k < s.rows
      ensures t.paint.children[k] == RenderRow(t, k)
    {
      PaintIrrelevant(u, t, k);
    }
  }

  lemma ShowCursorInSync(s: State)
    requires Renderable(s) && InSync(s)
    ensures Renderable(ShowCursor(s)) && InSync(ShowCursor(s))
  {
    SwitchCursorInSync(s, true);
    hide BufferOk, PaletteOk, RenderRow;
  }

  lemma EnterInSync(s: State)
    requires Writing(s) && s.normal.None?
    ensures Writing(EnterAlternate(s)) && InSync(EnterAlternate(s))
    ensures EnterAlternate(s).buf.y == 0 && SameRange(s, EnterAlternate(s))
  {
    hide BufferOk, PaletteOk, AttrOk, RenderRow, FreshBuffer;
    CursorInside(s);
    SwitchIsValid(s);
    FreshIsOk(s);
    RefreshAllInSync(Reconstruct(s));
    var r := Reset(s);
    var t := r.(normal := Some(s.buf));
    assert Renderable(t);
    forall k | 0 <= k < s.rows
      ensures t.paint.children[k] == RenderRow(t, k)
    {
      OtherFields(r, t, k);
    }
    ShowCursorInSync(t);
    assert FreshBuffer(s.cols, s.rows).y == 0 by { FreshHome(s.cols, s.rows); }
  }

  lemma FreshHome(cols: nat, rows: nat)
    ensures FreshBuffer(cols, rows).y == 0
  {
  }

  lemma OtherFields(s: State, t: State, k: int)
    requires Renderable(s) && Renderable(t) && 0 <= k < s.rows
    requires t == s.(normal := t.normal, savedCols := t.savedCols, parser := t.parser, queue := t.queue)
    ensures RenderRow(s, k) == RenderRow(t, k)
  {
    hide BufferOk, PaletteOk, RenderLine;
  }

  lemma LeaveInSync(s: State)
    requires Writing(s) && s.normal.Some?
    ensures Writing(LeaveAlternate(s)) && InSync(LeaveAlternate(s))
    ensures LeaveAlternate(s).buf.y == s.normal.value.y && SameRange(s, LeaveAlternate(s))
  {
    hide PaletteOk, AttrOk, RenderRow, LineOk;
    SwitchIsValid(s);
    var r := s.(buf := s.normal.value, normal := None);
    RefreshAllInSync(r);
    ShowCursorInSync(RefreshAll(r));
  }

  lemma ResizeInSync(s: State, x: int, y: int)
    requires Valid(s)
    ensures Valid(Resize(s, x, y)) && InSync(Resize(s, x, y))
    ensures Resize(s, x, y).buf.y == Min(s.buf.y, Max(y, 1) - 1) && SameRange(s, Resize(s, x, y))
  {
    hide BufferOk, PaletteOk, AttrOk, RenderRow, FitLines, Fit;
    ResizeIsValid(s, x, y);
    ResizedIsOk(s, Max(x, 1), Max(y, 1));
    RefreshAllInSync(Resized(s, Max(x, 1), Max(y, 1)));
  }

  lemma RepaintQuiet(s: State, t: State)
    requires Writing(s) && Writing(t) && InSync(t) && SameRange(s, t)
    requires InRange(s, t.buf.y)
    ensures Quiet(t)
  {
    hide BufferOk, AttrOk, PaletteOk, RenderRow, Plain;
    forall k | 0 <= k < t.rows && !InRange(t, k)
      ensures t.paint.children[k] == Plain(t, k)
    {
      RowWithoutCursor(t, k);
    }
  }

  lemma NoRepaint(s: State, f: char, p: nat)
    requires Writing(s) && RepaintedRow(s, f, p).None? && (f == 'h' || f == 'l')
    ensures SameScreen(s, ChangeMode(s, f, p))
  {
    hide Writing, Resize, AllAscii;
  }

  lemma WideRow(s: State, f: char)
    requires Writing(s) && RepaintedRow(s, f, 3).Some? && (f == 'h' || f == 'l')
    ensures var t := ChangeMode(s, f, 3); InSync(t) && t.buf.y == s.buf.y && SameRange(s, t)
  {
    hide Writing, Valid, Resize, RenderRow;
    CursorInside(s);
    WideValid(s);
    if f == 'h' {
      ResizeInSync(s.(savedCols := Some(s.cols)), 132, s.rows);
    } else {
      var r := Resize(s, s.savedCols.value, s.rows);
      ResizeInSync(s, s.savedCols.value, s.rows);
      ForgetColumns(r);
    }
  }

  lemma WideValid(s: State)
    requires Writing(s)
    ensures Valid(s) && Valid(s.(savedCols := Some(s.cols))) && s.buf.y <= Max(s.rows, 1) - 1
  {
    hide PaletteOk, AttrOk, LineOk;
  }

  lemma ForgetColumns(r: State)
    requires Valid(r) && InSync(r)
    ensures Valid(r.(savedCols := None)) && InSync(r.(savedCols := None))
  {
    hide BufferOk, PaletteOk, AttrOk, RenderRow;
    forall k | 0 <= k < r.rows
      ensures RenderRow(r.(savedCols := None), k) == RenderRow(r, k)
    {
      OtherFields(r, r.(savedCols := None), k);
    }
  }

  lemma ModeQuiet(s: State, f: char, p: nat)
    requires Writing(s) && Quiet(s) && (f == 'h' || f == 'l')
    requires var row := RepaintedRow(s, f, p); row.Some? ==> InRange(s, row.value)
    ensures Quiet(ChangeMode(s, f, p))
  {
    hide Writing, Quiet, InSync, Resize, EnterAlternate, LeaveAlternate, AllAscii;
    var t := ChangeMode(s, f, p);
    if RepaintedRow(s, f, p).None? {
      NoRepaint(s, f, p);
      SameScreenQuiet(s, t);
    } else {
      if p == 3 {
        WideRow(s, f);
      } else if f == 'h' {
        EnterInSync(s);
      } else {
        LeaveInSync(s);
      }
      RepaintQuiet(s, t);
    }
  }

  lemma {:induction false} ModesQuiet(s: State, f: char, ps: seq<nat>)
    requires Writing(s) && Quiet(s) && (f == 'h' || f == 'l') && TrackedModes(s, f, ps)
    ensures var t := if f == 'h' then SetModes(s, ps) else ResetModes(s, ps);
            Writing(t) && Quiet(t)
    decreases |ps|
  {
    hide Writing, Quiet, SetMode, ResetMode, RepaintedRow;
    if ps != [] {
      ModeQuiet(s, f, ps[0]);
      ModesQuiet(ChangeMode(s, f, ps[0]), f, ps[1..]);
    }
  }

  lemma ExecuteQuiet(s: State, f: char, ps: seq<nat>)
    requires Writing(s) && |ps| > 0 && Writing(Execute(s, f, ps))
    requires Quiet(s) && TrackedCsi(s, f, ps)
    ensures Quiet(Execute(s, f, ps))
  {
    hide Writing, Quiet, Edit, Target, SetModes, ResetModes, Restyle, Reported, Identified, RegionTop, RegionBottom;
    CursorInside(s);
    if IsEdit(f) {
      assert !IsMove(f);
      EditCarries(s, f, ps);
      CarriesQuiet(s, Edit(s, f, ps));
    } else if f == 'h' || f == 'l' {
      ModesQuiet(s, f, ps);
    } else {
      assert SameScreen(s, Execute(s, f, ps));
      SameScreenQuiet(s, Execute(s, f, ps));
    }
  }

  lemma StepCsiQuiet(s: State, ch: char)
    requires Writing(s) && s.parser.mode == Csi && Writing(StepCsi(s, ch)) && Quiet(s) && Tracked(s, ch)
    ensures Quiet(StepCsi(s, ch))
  {
    hide Writing, Quiet, Execute, TrackedCsi;
    if IsPrefix(ch) || IsDigit(ch) || IsPostfix(ch) || ch == ';' {
      SameScreenQuiet(s, StepCsi(s, ch));
    } else {
      var ps := s.parser.params + [s.parser.currentParam];
      var t := Executing(s, ps);
      PrefixedWriting(s, t);
      SameScreenQuiet(s, t);
      var u := Execute(t, ch, ps);
      PrefixIrrelevant(u, "");
      ExecuteQuiet(t, ch, ps);
      SameScreenQuiet(u, StepCsi(s, ch));
    }
  }

  lemma PrintQuiet(s: State, ch: char)
    requires Writing(s) && Quiet(s)
    ensures Writing(Print(s, ch)) && Quiet(Print(s, ch))
  {
    PrintShape(s, ch);
    WrapIsOk(s);
    HomeColumnShape(s);
    var s', t := Wrap(s), To(s, 0, s.buf.y);
    SameScreenQuiet(s, t);
    IndexLineIsOk(t);
    IndexCarries(t);
    CarriesQuiet(t, IndexLine(t));
    assert Quiet(s');
    CursorInside(s');
    PutCarries(s', Print(s, ch), Cell(s.curAttr, if ch in s.charsets.active then s.charsets.active[ch] else ch));
    hide Writing, Quiet, Print, Wrap;
    CarriesQuiet(s', Print(s, ch));
  }

  lemma PutCarries(s: State, s': State, c: Cell)
    requires Writing(s) && Writing(s') && s.buf.x < s.cols
    requires s' == Touch(s.(buf := PutCell(s.buf, s.cols, s.rows, s.env.scrollback, c)), s.buf.y)
    ensures Carries(s, s')
  {
    hide LineOk, PaletteOk, AttrOk;
  }

  lemma ResetQuiet(s: State)
    requires Writing(s)
    ensures Writing(Reset(s)) && Quiet(Reset(s))
  {
    SwitchIsValid(s);
    FreshIsOk(s);
    hide LineOk, PaletteOk, AttrOk, RenderLine, FreshBuffer;
  }

  lemma LineFeedQuiet(s: State)
    requires Writing(s) && Quiet(s)
    ensures Writing(IndexLine(s)) && Quiet(IndexLine(s))
    ensures Writing(To(s, 0, s.buf.y)) && Quiet(To(s, 0, s.buf.y))
    ensures Writing(IndexLine(To(s, 0, s.buf.y))) && Quiet(IndexLine(To(s, 0, s.buf.y)))
  {
    HomeColumnShape(s);
    var t := To(s, 0, s.buf.y);
    LineFeedShape(s);
    hide Writing, Quiet, IndexLine;
    SameScreenQuiet(s, t);
    IndexCarries(s);
    CarriesQuiet(s, IndexLine(s));
    IndexCarries(t);
    CarriesQuiet(t, IndexLine(t));
  }

  lemma ControlQuiet(s: State, ch: char)
    requires Writing(s) && Quiet(s) && ch < ' ' && !IsLineFeed(ch)
    ensures Writing(StepNormal(s, ch)) && Quiet(StepNormal(s, ch))
  {
    hide StepNormal, Writing, Quiet;
    StepNormalShape(s, ch);
    SameScreenQuiet(s, StepNormal(s, ch));
  }

  lemma StepNormalQuiet(s: State, ch: char)
    requires Writing(s) && Quiet(s)
    ensures Writing(StepNormal(s, ch)) && Quiet(StepNormal(s, ch))
  {
    hide Writing, Quiet, IndexLine, Print, NextStop, SetGLevel;
    if ch < ' ' && !IsLineFeed(ch) {
      ControlQuiet(s, ch);
    } else if ch >= ' ' {
      PrintQuiet(s, ch);
    } else {
      LineFeedQuiet(s);
    }
  }

  lemma ReverseQuiet(s: State)
    requires Writing(s) && Quiet(s) && (s.buf.y >= s.buf.scrollTop || s.paint.start <= s.buf.y)
    ensures Writing(ReverseIndexLine(s)) && Quiet(ReverseIndexLine(s))
  {
    LineFeedShape(s);
    hide Writing, Quiet, ReverseIndexLine;
    ReverseIndexCarries(s);
    CarriesQuiet(s, ReverseIndexLine(s));
  }

  lemma ScreenEscapeQuiet(s: State, ch: char)
    requires Writing(s) && s.parser.mode == Escaped && Quiet(s) && Tracked(s, ch) && IsScreenEscape(ch)
    requires Writing(ScreenEscape(s, ch))
    ensures Quiet(ScreenEscape(s, ch))
  {
    hide Writing, Quiet, IndexLine, ReverseIndexLine, Reset;
    if ch == 'c' {
      ResetQuiet(s);
    } else if ch == 'M' {
      ReverseQuiet(s);
      SameScreenQuiet(ReverseIndexLine(s), ScreenEscape(s, ch));
    } else {
      LineFeedQuiet(s);
      SameScreenQuiet(if ch == 'D' then IndexLine(s) else IndexLine(To(s, 0, s.buf.y)), ScreenEscape(s, ch));
    }
  }

  lemma StepEscapedQuiet(s: State, ch: char)
    requires Writing(s) && s.parser.mode == Escaped && Quiet(s) && Tracked(s, ch) && Writing(StepEscaped(s, ch))
    ensures Quiet(StepEscaped(s, ch))
  {
    CursorInside(s);
    hide Writing, Quiet, Tracked, ScreenEscape, IsScreenEscape, EscapeParser, EscapeCharsets;
    if IsScreenEscape(ch) {
      ScreenEscapeQuiet(s, ch);
    } else {
      SameScreenQuiet(s, StepEscaped(s, ch));
    }
  }

  /** A tracked step keeps every row outside the damage range painted. */
  lemma StepQuiet(s: State, ch: char)
    requires Writing(s) && Quiet(s) && Guard(s, ch) && Tracked(s, ch)
    ensures Writing(Step(s, ch)) && Quiet(Step(s, ch))
  {
    StepShape(s, ch);
    hide Writing, Quiet, StepNormal, StepEscaped, StepCsi, StepOsc, StepCharset, StepDcs, Guard, Tracked;
    match s.parser.mode {
      case Normal => StepNormalQuiet(s, ch);
      case Escaped => StepEscapedQuiet(s, ch);
      case Csi => StepCsiQuiet(s, ch);
      case _ =>
        CursorInside(s);
        SameScreenQuiet(s, Step(s, ch));
    }
  }

  /** Every step of the run is tracked. */
  ghost predicate TrackedRun(s: State, data: string)
    requires Writing(s)
    decreases |data|, EscapedRank(s)
  {
    hide Writing, StepNormal, StepCsi, StepOsc, StepCharset, StepDcs, StepIgnore, Tracked;
    data != [] ==>
      && Tracked(s, data[0])
      && var s' := Step(s, data[0]);
         StepAdvances(s, data);
         Writing(s') ==> TrackedRun(s', Drop(data, Advance(s.parser.mode, data[0])))
  }

  lemma {:induction false} RunQuiet(s: State, data: string)
    requires Writing(s) && Quiet(s) && Guarded(s, data) && TrackedRun(s, data)
    ensures Writing(Run(s, data)) && Quiet(Run(s, data))
    decreases |data|, EscapedRank(s)
  {
    hide Writing, Quiet, Step, Guard, Tracked;
    if data != [] {
      StepQuiet(s, data[0]);
      StepAdvances(s, data);
      RunQuiet(Step(s, data[0]), Drop(data, Advance(s.parser.mode, data[0])));
    }
  }

  lemma RowWithoutCursor(s: State, k: int)
    requires Writing(s) && 0 <= k < s.rows && k != s.buf.y
    ensures RenderRow(s, k) == Plain(s, k)
  {
    hide LineOk, PaletteOk, AttrOk, RenderLine;
  }

  lemma PaintIrrelevant(s: State, t: State, k: int)
    requires Renderable(s) && Renderable(t) && t == s.(paint := t.paint) && 0 <= k < s.rows
    ensures RenderRow(s, k) == RenderRow(t, k)
  {
    hide LineOk, PaletteOk, RenderLine;
  }

  lemma BeginRow(s: State, k: int)
    requires Valid(s) && InSync(s) && s.buf.ybase == s.buf.ydisp && 0 <= k < s.rows && k != s.buf.y
    ensures s.paint.children[k] == Plain(Begin(s), k)
  {
    RowWithoutCursor(Begin(s), k);
    hide BufferOk, PaletteOk, Plain, RenderRow;
    PaintIrrelevant(s, Begin(s), k);
  }

  lemma BeginQuiet(s: State)
    requires Valid(s) && InSync(s)
    ensures Quiet(Begin(s))
  {
    var s' := Begin(s);
    hide Valid, Writing, RenderRow, Plain, InSync;
    if s.buf.ybase == s.buf.ydisp {
      forall k | 0 <= k < s.rows && k != s.buf.y
        ensures s.paint.children[k] == Plain(s', k)
      {
        BeginRow(s, k);
      }
    }
  }

  lemma FinishRow(s: State, k: int)
    requires Writing(s) && Quiet(s) && 0 <= k < s.rows
    ensures Writing(Finish(s)) && Finish(s).paint.children[k] == RenderRow(Finish(s), k)
  {
    FinishShape(s);
    CursorInside(s);
    var t := Touch(s, s.buf.y);
    if k != s.buf.y {
      RowWithoutCursor(s, k);
    }
    assert Renderable(s) && Renderable(t);
    hide Writing, Renderable, Plain, RenderRow;
    PaintIrrelevant(s, t, k);
    PaintIrrelevant(s, Finish(s), k);
  }

  lemma FinishInSync(s: State)
    requires Writing(s) && Quiet(s)
    ensures Writing(Finish(s)) && InSync(Finish(s))
  {
    FinishShape(s);
    forall k | 0 <= k < s.rows
      ensures Finish(s).paint.children[k] == RenderRow(Finish(s), k)
    {
      FinishRow(s, k);
    }
    hide Writing, RenderRow;
  }

  /** `write` repaints enough: on guarded and tracked streams every row element is right afterwards, cursor included. */
  lemma WriteKeepsSync(s: State, data: string)
    requires Valid(s) && InSync(s) && Guarded(Begin(s), data) && TrackedRun(Begin(s), data)
    ensures Valid(Write(s, data)) && InSync(Write(s, data))
  {
    BeginQuiet(s);
    RunQuiet(Begin(s), data);
    FinishInSync(Run(Begin(s), data));
    hide Run, Guarded, TrackedRun, Begin, Finish, Quiet, InSync;
  }
}
