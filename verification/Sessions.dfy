/**
 Whole sessions: a terminal is created and opened, and the page then makes any sequence of calls.
 The invariants of single calls hold over all of them.
 */
module Sessions {
  import opened Shifts
  import opened Attributes
  import opened Rendering
  import opened TabStops
  import opened Screen
  import opened Emulator
  import opened Shape
  import opened Damage
  import opened History
  import opened Isolation

  /** What the page does to a terminal. Typing is `Send`; `Flush` is the timer that hands the queue to the server. */
  datatype Call =
    | Write(data: string)
    | Resize(cols: int, rows: int)
    | ScrollDisp(disp: int)
    | ShowCursor
    | SwitchCursor(on: bool)
    | Send(data: string)
    | Flush

  ghost function Do(s: State, c: Call): State
    requires Valid(s)
  {
    match c
    case Write(data) => Emulator.Write(s, data)
    case Resize(cols, rows) => Emulator.Resize(s, cols, rows)
    case ScrollDisp(disp) => ScrollView(s, disp)
    case ShowCursor => Emulator.ShowCursor(s)
    case SwitchCursor(on) => Emulator.SwitchCursor(s, on)
    case Send(data) => s.(queue := s.queue + data)
    case Flush => s.(queue := "")
  }

  ghost predicate GuardedCall(s: State, c: Call)
    requires Valid(s)
  {
    c.Write? ==> Guarded(Begin(s), c.data)
  }

  ghost predicate TrackedCall(s: State, c: Call)
    requires Valid(s)
  {
    c.Write? ==> TrackedRun(Begin(s), c.data)
  }

  // ---------------------------------------------------------------- single calls

  lemma ViewIsValid(s: State, disp: int)
    requires Valid(s)
    ensures Valid(ScrollView(s, disp)) && InSync(ScrollView(s, disp))
  {
    hide LineOk, PaletteOk, AttrOk, RenderRow;
    RefreshAllInSync(s.(buf := s.buf.(ydisp := Max(0, Min(s.buf.ydisp + disp, s.buf.ybase)))));
  }

  lemma CursorCallIsValid(s: State, on: bool)
    requires Valid(s)
    ensures Valid(Emulator.SwitchCursor(s, on)) && Valid(Emulator.ShowCursor(s))
  {
    hide LineOk, PaletteOk, AttrOk, RenderRow;
  }

  lemma QueueIsUnseen(s: State, queue: string)
    requires Valid(s)
    ensures Valid(s.(queue := queue)) && (InSync(s) ==> InSync(s.(queue := queue)))
  {
    hide BufferOk, PaletteOk, AttrOk, RenderRow;
    forall k | 0 <= k < s.rows
      ensures RenderRow(s.(queue := queue), k) == RenderRow(s, k)
    {
      OtherFields(s, s.(queue := queue), k);
    }
  }

  /** The shape survives every guarded call. */
  lemma CallIsValid(s: State, c: Call)
    requires Valid(s) && GuardedCall(s, c)
    ensures Valid(Do(s, c))
  {
    hide Valid, Writing, Emulator.Write, Emulator.Resize, ScrollView, Emulator.ShowCursor, Emulator.SwitchCursor,
      Guarded;
    match c {
      case Write(data) =>
        WriteShape(s, data);
        ValidWhileWriting(Emulator.Write(s, data));
      case Resize(cols, rows) => ResizeIsValid(s, cols, rows);
      case ScrollDisp(disp) => ViewIsValid(s, disp);
      case ShowCursor => CursorCallIsValid(s, true);
      case SwitchCursor(on) => CursorCallIsValid(s, on);
      case Send(data) => QueueIsUnseen(s, s.queue + data);
      case Flush => QueueIsUnseen(s, "");
    }
  }

  /** Every tracked call leaves every row element as a rendering from scratch would make it. */
  lemma CallKeepsSync(s: State, c: Call)
    requires Valid(s) && GuardedCall(s, c) && TrackedCall(s, c) && InSync(s)
    ensures Valid(Do(s, c)) && InSync(Do(s, c))
  {
    hide Valid, Writing, InSync, Emulator.Write, Emulator.Resize, ScrollView, Emulator.ShowCursor,
      Emulator.SwitchCursor,
      Guarded, TrackedRun;
    CallIsValid(s, c);
    ValidRenders(s);
    match c {
      case Write(data) => WriteKeepsSync(s, data);
      case Resize(cols, rows) => ResizeInSync(s, cols, rows);
      case ScrollDisp(disp) => ViewIsValid(s, disp);
      case ShowCursor => ShowCursorInSync(s);
      case SwitchCursor(on) => SwitchCursorInSync(s, on);
      case Send(data) => QueueIsUnseen(s, s.queue + data);
      case Flush => QueueIsUnseen(s, "");
    }
  }

  // ---------------------------------------------------------------- history through calls

  /** The history after a call: a stream adds what it pushes off, and a resize fits every recorded row. */
  ghost function HistoryAfter(s: State, c: Call, h: seq<Line>): seq<Line>
    requires Valid(s)
  {
    match c
    case Write(data) => h + PushedByRun(Begin(s), data)
    case Resize(cols, _) => FitLines(h, s.cols, Max(cols, 1))
    case _ => h
  }

  ghost predicate OneBufferCall(s: State, c: Call)
    requires Valid(s)
  {
    c.Write? ==> OneBuffer(Begin(s), c.data)
  }

  lemma ResizeFitsHistory(b: Buffer, cols: int, rows: int, newCols: int, newRows: int, scrollback: nat, h: seq<Line>)
    requires 1 <= cols && 1 <= rows && 1 <= newCols && 1 <= newRows && |b.lines| == b.ybase + rows
    requires IsHistory(b, scrollback, h)
    ensures IsHistory(ResizeBuffer(b, cols, rows, newCols, newRows), scrollback, FitLines(h, cols, newCols))
  {
    hide FitLine, StopsAfterResize;
    var r := ResizeBuffer(b, cols, rows, newCols, newRows);
    var fitted := FitLines(h, cols, newCols);
    forall i | 0 <= i < b.ybase
      ensures r.lines[i] == Last(fitted, b.ybase)[i]
    {
      assert b.lines[i] == b.lines[..b.ybase][i] == Last(h, b.ybase)[i];
    }
    assert r.lines[..r.ybase] == Last(fitted, b.ybase);
  }

  lemma CallKeepsHistory(s: State, c: Call, h: seq<Line>)
    requires Valid(s) && GuardedCall(s, c) && OneBufferCall(s, c) && Recorded(s, h)
    ensures Recorded(Do(s, c), HistoryAfter(s, c, h))
  {
    hide PaletteOk, AttrOk, LineOk, IsHistory, Emulator.Write, PushedByRun, Guarded, OneBuffer, RenderRow, FitLines,
      Fit,
      StopsAfterResize;
    match c {
      case Write(data) => WriteHistory(s, data, h);
      case Resize(cols, rows) =>
        ResizeFitsHistory(s.buf, s.cols, s.rows, Max(cols, 1), Max(rows, 1), s.env.scrollback, h);
      case ScrollDisp(disp) => ViewKeepsHistory(s, disp, h);
      case _ =>
    }
  }

  lemma ViewKeepsHistory(s: State, disp: int, h: seq<Line>)
    requires Valid(s) && Recorded(s, h)
    ensures Recorded(ScrollView(s, disp), h)
  {
    hide PaletteOk, AttrOk, LineOk, RenderRow;
  }

  // ---------------------------------------------------------------- sessions

  ghost function Session(s: State, calls: seq<Call>): State
    requires Valid(s)
    decreases |calls|
  {
    if calls == [] then s
    else
      var t := Do(s, calls[0]);
      if Valid(t) then Session(t, calls[1..]) else t
  }

  ghost predicate GuardedSession(s: State, calls: seq<Call>)
    requires Valid(s)
    decreases |calls|
  {
    calls != [] ==>
      && GuardedCall(s, calls[0])
      && (Valid(Do(s, calls[0])) ==> GuardedSession(Do(s, calls[0]), calls[1..]))
  }

  ghost predicate TrackedSession(s: State, calls: seq<Call>)
    requires Valid(s)
    decreases |calls|
  {
    calls != [] ==>
      && TrackedCall(s, calls[0])
      && (Valid(Do(s, calls[0])) ==> TrackedSession(Do(s, calls[0]), calls[1..]))
  }

  ghost predicate OneBufferSession(s: State, calls: seq<Call>)
    requires Valid(s)
    decreases |calls|
  {
    calls != [] ==>
      && OneBufferCall(s, calls[0])
      && (Valid(Do(s, calls[0])) ==> OneBufferSession(Do(s, calls[0]), calls[1..]))
  }

  /** All rows ever pushed off the top, fitted to the present width. */
  ghost function SessionHistory(s: State, calls: seq<Call>, h: seq<Line>): seq<Line>
    requires Valid(s)
    decreases |calls|
  {
    if calls == [] || !Valid(Do(s, calls[0])) then h
    else SessionHistory(Do(s, calls[0]), calls[1..], HistoryAfter(s, calls[0], h))
  }

  /** A fresh terminal has its shape, shows what it holds and has no history. */
  lemma OpenedIsReady(env: Env, cols: nat, rows: nat)
    requires EnvOk(env) && 1 <= cols && 1 <= rows
    ensures var c := Created(env, cols, rows); Valid(c.(paint := c.paint.(children := Repeat("", rows))))
    ensures var s := Opened(Created(env, cols, rows));
            Valid(s) && InSync(s) && Recorded(s, []) && s.cols == cols && s.rows == rows
  {
    assert AttrOk(DEF_ATTR);
    hide PaletteOk, AttrOk, RenderRow, StopsFrom;
    var c := Created(env, cols, rows);
    var painted := c.(paint := c.paint.(children := Repeat("", rows)));
    assert Valid(painted);
    RefreshAllInSync(painted);
    ShowCursorInSync(RefreshAll(painted));
  }

  /**
   Over every session whose streams are guarded, from any state with the shape: the shape stays. With tracked streams
   the page never shows anything stale, and on one buffer the scrollback is always the newest part of the history.
   */
  lemma {:induction false} SessionInvariants(s: State, calls: seq<Call>, h: seq<Line>)
    requires Valid(s) && GuardedSession(s, calls)
    ensures Valid(Session(s, calls))
    ensures InSync(s) && TrackedSession(s, calls) ==> InSync(Session(s, calls))
    ensures Recorded(s, h) && OneBufferSession(s, calls) ==> Recorded(Session(s, calls), SessionHistory(s, calls, h))
    decreases |calls|
  {
    hide Valid, InSync, Recorded, Do, GuardedCall, TrackedCall, OneBufferCall, HistoryAfter;
    ValidRenders(s);
    if calls != [] {
      CallIsValid(s, calls[0]);
      if InSync(s) && TrackedSession(s, calls) {
        CallKeepsSync(s, calls[0]);
      }
      if Recorded(s, h) && OneBufferSession(s, calls) {
        CallKeepsHistory(s, calls[0], h);
      }
      SessionInvariants(Do(s, calls[0]), calls[1..], HistoryAfter(s, calls[0], h));
    }
  }

  /** So it is for every session of a new terminal. */
  lemma EverySession(env: Env, cols: nat, rows: nat, calls: seq<Call>)
    requires EnvOk(env) && 1 <= cols && 1 <= rows
    requires Valid(NewTerminal(env, cols, rows)) ==> GuardedSession(NewTerminal(env, cols, rows), calls)
    ensures var s := NewTerminal(env, cols, rows);
            && Valid(s) && Valid(Session(s, calls))
            && (TrackedSession(s, calls) ==> InSync(Session(s, calls)))
            && (OneBufferSession(s, calls) ==> Recorded(Session(s, calls), SessionHistory(s, calls, [])))
  {
    hide Valid, InSync, Recorded, Session, GuardedSession, TrackedSession, OneBufferSession, SessionHistory;
    OpenedIsReady(env, cols, rows);
    SessionInvariants(NewTerminal(env, cols, rows), calls, []);
  }

  /** A new terminal after `open`. */
  function NewTerminal(env: Env, cols: nat, rows: nat): State
    requires EnvOk(env) && 1 <= cols && 1 <= rows
  {
    OpenedIsReady(env, cols, rows);
    Opened(Created(env, cols, rows))
  }

  // ---------------------------------------------------------------- the alternate screen over calls

  /** Calls during which the main buffer stays saved: no resize, and streams that stay inside. */
  ghost predicate InsideCall(s: State, c: Call)
    requires Valid(s)
  {
    !c.Resize? && (c.Write? ==> StaysInside(Begin(s), c.data))
  }

  ghost predicate InsideSession(s: State, calls: seq<Call>)
    requires Valid(s)
    decreases |calls|
  {
    calls != [] ==>
      && InsideCall(s, calls[0])
      && (Valid(Do(s, calls[0])) ==> InsideSession(Do(s, calls[0]), calls[1..]))
  }

  lemma CallKeepsSaved(s: State, c: Call)
    requires Valid(s) && GuardedCall(s, c) && InsideCall(s, c)
    ensures Do(s, c).normal == s.normal
  {
    hide BufferOk, PaletteOk, AttrOk, RenderRow, Run, Guarded, StaysInside;
    if c.Write? {
      RunShape(Begin(s), c.data);
      RunKeepsSaved(Begin(s), c.data);
    }
  }

  /** However many calls the alternate screen is shown for, leaving it brings the saved buffer back and shows it. */
  lemma {:induction false} SavedThroughSession(s: State, calls: seq<Call>)
    requires Valid(s) && s.normal.Some? && GuardedSession(s, calls) && InsideSession(s, calls)
    ensures Valid(Session(s, calls)) && Session(s, calls).normal == s.normal
    decreases |calls|
  {
    hide Valid, Do, GuardedCall, InsideCall;
    if calls != [] {
      CallIsValid(s, calls[0]);
      CallKeepsSaved(s, calls[0]);
      SavedThroughSession(Do(s, calls[0]), calls[1..]);
    }
  }
}
