/**
 Damage tracking, exactly: a `write` leaves the page right if and only if every row outside the final damage range
 still looks as it was last painted.
 */
module DamageExact {
  import opened Shifts
  import opened Attributes
  import opened Rendering
  import opened TabStops
  import opened Screen
  import opened Emulator
  import opened Shape
  import opened Damage
  import opened History

  /** The row elements stay and the damage range grows. */
  predicate PaintGrows(s: State, s': State) {
    && s'.env == s.env && s'.cols == s.cols && s'.rows == s.rows
    && s'.paint.children == s.paint.children
    && s'.paint.start <= s.paint.start && s.paint.end <= s'.paint.end
  }

  lemma IndexPaint(s: State)
    requires Writing(s)
    ensures PaintGrows(s, IndexLine(s)) && PaintGrows(s, ReverseIndexLine(s))
  {
    hide Writing, Index, ReverseIndex;
    CursorInside(s);
  }

  lemma PrintPaint(s: State, ch: char)
    requires Writing(s)
    ensures PaintGrows(s, Print(s, ch))
  {
    hide Writing, IndexLine, PutCell, BufferOk;
    WrapIsOk(s);
    CursorInside(Wrap(s));
    HomeColumnShape(s);
    IndexPaint(To(s, 0, s.buf.y));
  }

  lemma NormalPaint(s: State, ch: char)
    requires Writing(s)
    ensures PaintGrows(s, StepNormal(s, ch))
  {
    hide Writing, IndexLine, Print, NextStop, SetGLevel;
    HomeColumnShape(s);
    if IsLineFeed(ch) {
      IndexPaint(s);
      IndexPaint(To(s, 0, s.buf.y));
    } else if ch >= ' ' {
      PrintPaint(s, ch);
    }
  }

  lemma EscapedPaint(s: State, ch: char)
    requires Writing(s) && ch != 'c'
    ensures PaintGrows(s, StepEscaped(s, ch))
  {
    hide Writing, IndexLine, ReverseIndexLine, SettingEscape;
    HomeColumnShape(s);
    IndexPaint(s);
    IndexPaint(To(s, 0, s.buf.y));
    if !IsScreenEscape(ch) {
      CharsetsAreFour(s);
      SettingPaint(s, ch);
    }
  }

  lemma SettingPaint(s: State, ch: char)
    requires |s.charsets.tables| == 4
    ensures PaintGrows(s, SettingEscape(s, ch))
  {
    hide EscapeParser, EscapeCharsets, EscapeBuffer;
  }

  lemma ExecutePaint(s: State, f: char, ps: seq<nat>)
    requires Writing(s) && |ps| > 0 && !Repaints(s.parser.prefix, f, ps)
    ensures PaintGrows(s, Execute(s, f, ps))
  {
    hide Writing, EditedBuffer, Target, SetModes, ResetModes, Restyle, Reported, Identified, SetBuffer;
    CursorInside(s);
    if f == 'h' {
      SetModesSameScreen(s, ps);
    } else if f == 'l' {
      ResetModesSameScreen(s, ps);
    }
  }

  lemma CsiPaint(s: State, ch: char)
    requires Writing(s) && s.parser.mode == Csi && KeepsBuffer(s, ch)
    ensures PaintGrows(s, StepCsi(s, ch))
  {
    hide Writing, Execute;
    if !(IsPrefix(ch) || IsDigit(ch) || IsPostfix(ch) || ch == ';') {
      var ps := s.parser.params + [s.parser.currentParam];
      PrefixedWriting(s, Executing(s, ps));
      ExecutePaint(Executing(s, ps), ch, ps);
    }
  }

  lemma StepPaint(s: State, ch: char)
    requires Writing(s) && KeepsBuffer(s, ch)
    ensures PaintGrows(s, Step(s, ch))
  {
    hide Writing, StepNormal, StepEscaped, StepCsi, DcsReply, DcsParser, OscParser, KeepsBuffer;
    CursorInside(s);
    match s.parser.mode {
      case Normal => NormalPaint(s, ch);
      case Escaped =>
        assert ch != 'c' by { EscapeKeeps(s, ch); }
        EscapedPaint(s, ch);
      case Csi => CsiPaint(s, ch);
      case _ =>
    }
  }

  lemma EscapeKeeps(s: State, ch: char)
    requires KeepsBuffer(s, ch) && s.parser.mode == Escaped
    ensures ch != 'c'
  {
  }

  lemma {:induction false} RunPaint(s: State, data: string)
    requires Writing(s) && Guarded(s, data) && OneBuffer(s, data)
    ensures Writing(Run(s, data)) && PaintGrows(s, Run(s, data))
    decreases |data|, EscapedRank(s)
  {
    hide Writing, Step, Guard, KeepsBuffer;
    if data != [] {
      StepShape(s, data[0]);
      StepPaint(s, data[0]);
      StepAdvances(s, data);
      RunPaint(Step(s, data[0]), Drop(data, Advance(s.parser.mode, data[0])));
    }
  }

  /** The rows that `write` renders at its end. */
  predicate Repainted(r: State, k: int) {
    Min(r.paint.start, r.buf.y) <= k <= Max(r.paint.end, r.buf.y)
  }

  lemma FinishedRow(r: State, k: int)
    requires Writing(r) && 0 <= k < r.rows
    ensures var t := Finish(r);
            && Writing(t) && Renderable(t) && |t.paint.children| == r.rows == t.rows
            && RenderRow(t, k) == RenderRow(r, k)
            && t.paint.children[k] == if Repainted(r, k) then RenderRow(r, k) else r.paint.children[k]
  {
    hide BufferOk, PaletteOk, AttrOk, RenderRow;
    FinishShape(r);
    PaintIrrelevant(r, Touch(r, r.buf.y), k);
    PaintIrrelevant(r, Finish(r), k);
  }

  /** A page that is right when `write` begins has its other rows painted, and without a cursor. */
  lemma SyncIsQuiet(s: State)
    requires Writing(s) && InSync(s) && InRange(s, s.buf.y)
    ensures Quiet(s)
  {
    hide BufferOk, PaletteOk, AttrOk, RenderRow, Plain;
    forall k | 0 <= k < s.rows && !InRange(s, k)
      ensures s.paint.children[k] == Plain(s, k)
    {
      RowWithoutCursor(s, k);
    }
  }

  lemma FinishExact(s: State, r: State)
    requires Writing(s) && Quiet(s) && Writing(r) && PaintGrows(s, r)
    ensures Writing(Finish(r))
    ensures InSync(Finish(r)) <==> forall k | 0 <= k < s.rows && !Repainted(r, k) :: Plain(r, k) == Plain(s, k)
  {
    hide Writing, RenderRow, Plain, Finish;
    FinishShape(r);
    ScreenInside(r);
    CursorInside(r);
    CursorInside(s);
    FinishedRow(r, 0);
    forall k | 0 <= k < s.rows
      ensures Finish(r).paint.children[k] == RenderRow(Finish(r), k)
           <==> (Repainted(r, k) || Plain(r, k) == Plain(s, k))
    {
      FinishedRow(r, k);
      if !Repainted(r, k) {
        RowWithoutCursor(r, k);
      }
    }
  }

  /**
   On one buffer, with any commands, ICH, DCH, ECH, REP and RI included: the page is right after `write` if and only if
   every row it does not render again looks, without a cursor, as it did at the start.
   */
  lemma WriteInSyncExactly(s: State, data: string)
    requires Valid(s) && InSync(s) && Guarded(Begin(s), data) && OneBuffer(Begin(s), data)
    ensures Writing(Run(Begin(s), data)) && PaintGrows(Begin(s), Run(Begin(s), data)) && Valid(Write(s, data))
    ensures var r := Run(Begin(s), data);
            InSync(Write(s, data))
            <==> forall k | 0 <= k < s.rows && !Repainted(r, k) :: Plain(r, k) == Plain(Begin(s), k)
  {
    hide Writing, Valid, Run, Finish, Plain, InSync, Guarded, OneBuffer, RenderRow;
    BeginQuiet(s);
    RunPaint(Begin(s), data);
    FinishExact(Begin(s), Run(Begin(s), data));
    FinishedValid(Run(Begin(s), data));
  }

  lemma FinishedValid(r: State)
    requires Writing(r)
    ensures Writing(Finish(r)) && Valid(Finish(r))
  {
    FinishShape(r);
  }

  // ---------------------------------------------------------------- every text

  /** All rows of a state, rendered with its cursor. */
  ghost function Rendered(s: State): (rows: seq<string>)
    requires Renderable(s)
    ensures |rows| == s.rows && forall k | 0 <= k < s.rows :: rows[k] == RenderRow(s, k)
  {
    seq(s.rows, k requires 0 <= k < s.rows => RenderRow(s, k))
  }

  /** All rows of a state, rendered without a cursor. */
  ghost function PlainRows(s: State): (rows: seq<string>)
    requires Writing(s)
    ensures |rows| == s.rows && forall k | 0 <= k < s.rows :: rows[k] == Plain(s, k)
  {
    seq(s.rows, k requires 0 <= k < s.rows => Plain(s, k))
  }

  /** What a page that showed these rows shows after a mode change with a list. */
  ghost function PaintedModes(s: State, f: char, ps: seq<nat>, was: seq<string>): seq<string>
    requires Writing(s)
    decreases |ps|
  {
    if ps == [] then was
    else
      var t := ChangeMode(s, f, ps[0]);
      WritingRenders(t);
      PaintedModes(t, f, ps[1..], if RepaintedRow(s, f, ps[0]).Some? then Rendered(t) else was)
  }

  /** What it shows after one step: only a reset and mode changes paint in the middle of a text. */
  ghost function PaintedBy(s: State, ch: char, was: seq<string>): seq<string>
    requires Writing(s)
  {
    if s.parser.mode == Escaped && ch == 'c' then
      SwitchIsValid(s);
      WritingRenders(Reset(s));
      Rendered(Reset(s))
    else if s.parser.mode == Csi && (ch == 'h' || ch == 'l') then
      var ps := s.parser.params + [s.parser.currentParam];
      PrefixedWriting(s, Executing(s, ps));
      PaintedModes(Executing(s, ps), ch, ps, was)
    else was
  }

  /** What it shows when a text has been read and the last rendering is still to come. */
  ghost function Painted(s: State, data: string, was: seq<string>): seq<string>
    requires Writing(s)
    decreases |data|, EscapedRank(s)
  {
    hide Writing, Step, PaintedBy;
    if data == [] then was
    else
      var s' := Step(s, data[0]);
      StepAdvances(s, data);
      var shown := PaintedBy(s, data[0], was);
      if Writing(s') then Painted(s', Drop(data, Advance(s.parser.mode, data[0])), shown) else shown
  }

  lemma WritingRenders(s: State)
    requires Writing(s)
    ensures Renderable(s)
  {
  }

  /** The damage range grows, whatever is painted. */
  predicate RangeGrows(s: State, s': State) {
    s'.rows == s.rows && s'.paint.start <= s.paint.start && s.paint.end <= s'.paint.end
  }

  lemma SyncIsRendered(s: State)
    requires Writing(s) && InSync(s)
    ensures Renderable(s) && s.paint.children == Rendered(s)
  {
    hide BufferOk, PaletteOk, AttrOk, RenderRow;
  }

  lemma ModePainted(s: State, f: char, p: nat)
    requires Writing(s) && (f == 'h' || f == 'l')
    ensures var t := ChangeMode(s, f, p);
            && Renderable(t) && RangeGrows(s, t)
            && t.paint.children == if RepaintedRow(s, f, p).Some? then Rendered(t) else s.paint.children
  {
    hide Writing, InSync, Resize, EnterAlternate, LeaveAlternate, AllAscii, Rendered;
    var t := ChangeMode(s, f, p);
    WritingRenders(t);
    ModeRows(s, f, p);
    if RepaintedRow(s, f, p).None? {
      NoRepaint(s, f, p);
    } else {
      if p == 3 {
        WideRow(s, f);
      } else if f == 'h' {
        EnterInSync(s);
      } else {
        LeaveInSync(s);
      }
      SyncIsRendered(t);
    }
  }

  lemma ModeRows(s: State, f: char, p: nat)
    requires Writing(s) && (f == 'h' || f == 'l')
    ensures ChangeMode(s, f, p).rows == s.rows
  {
    hide BufferOk, PaletteOk, AttrOk, RenderRow, FreshBuffer, ResizeBuffer, Fit;
    CursorInside(s);
  }

  lemma {:induction false} ModesPainted(s: State, f: char, ps: seq<nat>)
    requires Writing(s) && (f == 'h' || f == 'l')
    ensures var t := if f == 'h' then SetModes(s, ps) else ResetModes(s, ps);
            RangeGrows(s, t) && t.paint.children == PaintedModes(s, f, ps, s.paint.children)
    decreases |ps|
  {
    hide Writing, SetMode, ResetMode, RepaintedRow, Rendered;
    if ps != [] {
      ModePainted(s, f, ps[0]);
      ModesPainted(ChangeMode(s, f, ps[0]), f, ps[1..]);
    }
  }

  lemma ResetPainted(s: State)
    requires Writing(s)
    ensures Renderable(Reset(s)) && RangeGrows(s, Reset(s)) && Reset(s).paint.children == Rendered(Reset(s))
  {
    hide BufferOk, PaletteOk, AttrOk, RenderRow, FreshBuffer, Rendered;
    CursorInside(s);
    SwitchIsValid(s);
    FreshIsOk(s);
    RefreshAllInSync(Reconstruct(s));
    SyncIsRendered(Reset(s));
  }

  lemma StepPainted(s: State, ch: char)
    requires Writing(s)
    ensures RangeGrows(s, Step(s, ch)) && Step(s, ch).paint.children == PaintedBy(s, ch, s.paint.children)
  {
    hide Writing, StepNormal, StepEscaped, StepCsi, DcsReply, DcsParser, OscParser, KeepsBuffer, PaintedModes, Rendered;
    if s.parser.mode == Escaped && ch == 'c' {
      ValidWhileWriting(s);
      ResetPainted(s);
      EscapeResets(s);
    } else if s.parser.mode == Csi && (ch == 'h' || ch == 'l') {
      CsiModesPainted(s, ch);
    } else {
      assert KeepsBuffer(s, ch) by { OtherStepsKeep(s, ch); }
      StepPaint(s, ch);
    }
  }

  lemma EscapeResets(s: State)
    requires Writing(s)
    ensures StepEscaped(s, 'c') == Reset(s)
  {
    hide Writing, Reset;
  }

  lemma OtherStepsKeep(s: State, ch: char)
    requires !(s.parser.mode == Escaped && ch == 'c') && !(s.parser.mode == Csi && (ch == 'h' || ch == 'l'))
    ensures KeepsBuffer(s, ch)
  {
  }

  lemma CsiModesPainted(s: State, f: char)
    requires Writing(s) && s.parser.mode == Csi && (f == 'h' || f == 'l')
    ensures RangeGrows(s, StepCsi(s, f)) && StepCsi(s, f).paint.children == PaintedBy(s, f, s.paint.children)
  {
    hide Writing, PaintedModes, SetModes, ResetModes, Edit, Target, Set;
    var ps := s.parser.params + [s.parser.currentParam];
    PrefixedWriting(s, Executing(s, ps));
    ModesPainted(Executing(s, ps), f, ps);
  }

  lemma {:induction false} RunPainted(s: State, data: string)
    requires Writing(s) && Guarded(s, data)
    ensures Writing(Run(s, data)) && RangeGrows(s, Run(s, data))
    ensures Run(s, data).paint.children == Painted(s, data, s.paint.children)
    decreases |data|, EscapedRank(s)
  {
    hide Writing, Step, Guard, PaintedBy;
    if data != [] {
      StepShape(s, data[0]);
      StepPainted(s, data[0]);
      StepAdvances(s, data);
      RunPainted(Step(s, data[0]), Drop(data, Advance(s.parser.mode, data[0])));
    }
  }

  /** Rows are painted independently of one another. */
  lemma {:induction false} ModesPaintRows(s: State, f: char, ps: seq<nat>, v: seq<string>, w: seq<string>, k: nat)
    requires Writing(s) && (f == 'h' || f == 'l') && |v| == |w| == s.rows && k < s.rows && v[k] == w[k]
    ensures var v', w' := PaintedModes(s, f, ps, v), PaintedModes(s, f, ps, w); |v'| == |w'| == s.rows && v'[k] == w'[k]
    decreases |ps|
  {
    hide Writing, SetMode, ResetMode, RepaintedRow;
    if ps != [] {
      var t := ChangeMode(s, f, ps[0]);
      WritingRenders(t);
      ModeRows(s, f, ps[0]);
      var repaint := RepaintedRow(s, f, ps[0]).Some?;
      ModesPaintRows(t, f, ps[1..], if repaint then Rendered(t) else v, if repaint then Rendered(t) else w, k);
    }
  }

  lemma StepPaintsRows(s: State, ch: char, v: seq<string>, w: seq<string>, k: nat)
    requires Writing(s) && |v| == |w| == s.rows && k < s.rows && v[k] == w[k]
    ensures var v', w' := PaintedBy(s, ch, v), PaintedBy(s, ch, w); |v'| == |w'| == s.rows && v'[k] == w'[k]
  {
    hide Writing, PaintedModes, Rendered;
    if s.parser.mode == Escaped && ch == 'c' {
      ResetPainted(s);
    } else if s.parser.mode == Csi && (ch == 'h' || ch == 'l') {
      var ps := s.parser.params + [s.parser.currentParam];
      PrefixedWriting(s, Executing(s, ps));
      ModesPaintRows(Executing(s, ps), ch, ps, v, w, k);
    }
  }

  lemma {:induction false} RunPaintsRows(s: State, data: string, v: seq<string>, w: seq<string>, k: nat)
    requires Writing(s) && |v| == |w| == s.rows && k < s.rows && v[k] == w[k]
    ensures var v', w' := Painted(s, data, v), Painted(s, data, w); |v'| == |w'| == s.rows && v'[k] == w'[k]
    decreases |data|, EscapedRank(s)
  {
    hide Writing, Step, PaintedBy;
    if data != [] {
      var ch := data[0];
      StepAdvances(s, data);
      StepPainted(s, ch);
      StepPaintsRows(s, ch, v, w, k);
      if Writing(Step(s, ch)) {
        RunPaintsRows(Step(s, ch), Drop(data, Advance(s.parser.mode, ch)), PaintedBy(s, ch, v), PaintedBy(s, ch, w), k);
      }
    }
  }

  /**
   The exact condition for every guarded text, resets, buffer switches and resizes included: the page is right after
   `write` if and only if every row that is not rendered again still looks, without a cursor, as it was last painted in
   the course of the text, highlight included, or as it looked at the start if it was not painted.
   */
  lemma EveryWriteExactly(s: State, data: string)
    requires Valid(s) && InSync(s) && Guarded(Begin(s), data)
    ensures Writing(Run(Begin(s), data)) && Run(Begin(s), data).rows == s.rows && Valid(Write(s, data))
    ensures var r, painted := Run(Begin(s), data), Painted(Begin(s), data, PlainRows(Begin(s)));
            && |painted| == s.rows
            && (InSync(Write(s, data)) <==> forall k | 0 <= k < s.rows && !Repainted(r, k) :: Plain(r, k) == painted[k])
  {
    hide Writing, Valid, Run, Finish, Plain, InSync, Guarded, RenderRow, Painted, PlainRows, Quiet;
    var s0 := Begin(s);
    BeginQuiet(s);
    RunPainted(s0, data);
    var r := Run(s0, data);
    ScreenInside(s0);
    FinishedValid(r);
    CursorInside(r);
    CursorInside(s0);
    FinishedRow(r, 0);
    RunPaintsRows(s0, data, PlainRows(s0), PlainRows(s0), 0);
    var painted := Painted(s0, data, PlainRows(s0));
    forall k | 0 <= k < s.rows
      ensures Finish(r).paint.children[k] == RenderRow(Finish(r), k) <==> (Repainted(r, k) || Plain(r, k) == painted[k])
    {
      FinishedRow(r, k);
      if !Repainted(r, k) {
        RowWithoutCursor(r, k);
        QuietRow(s0, k);
        RunPaintsRows(s0, data, s0.paint.children, PlainRows(s0), k);
      }
    }
    InSyncIs(Finish(r));
  }

  lemma QuietRow(s: State, k: nat)
    requires Writing(s) && Quiet(s) && k < s.rows && !InRange(s, k)
    ensures |s.paint.children| == s.rows && s.paint.children[k] == Plain(s, k) == PlainRows(s)[k]
  {
    hide BufferOk, PaletteOk, AttrOk, Plain;
  }

  lemma InSyncIs(s: State)
    requires Writing(s)
    ensures Renderable(s) && |s.paint.children| == s.rows
    ensures InSync(s) <==> forall k | 0 <= k < s.rows :: s.paint.children[k] == RenderRow(s, k)
  {
    hide BufferOk, PaletteOk, AttrOk, RenderRow;
  }
}
