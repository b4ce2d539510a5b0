/**
 Scrollback is history: on one buffer, the lines above the screen are always the newest of the rows
 that were pushed off its top, verbatim and in order.
 */
module History {
  import opened Shifts
  import opened Attributes
  import opened Rendering
  import opened TabStops
  import opened Screen
  import opened Emulator
  import opened Shape
  import opened Damage

  /** The lines above the screen are a suffix of h, of at least half the limit if h is that long. */
  predicate IsHistory(b: Buffer, scrollback: nat, h: seq<Line>) {
    && 0 <= b.ybase <= |b.lines| && b.ybase <= |h|
    && b.lines[..b.ybase] == Last(h, b.ybase)
    && b.ybase >= Min(|h|, scrollback / 2 - 1)
  }

  /** What one `scroll` pushes off the top. */
  function Pushed(b: Buffer): seq<Line>
    requires 0 <= b.ybase < |b.lines|
  {
    if b.scrollTop == 0 then [b.lines[b.ybase]] else []
  }

  lemma LastOfAppend<T>(h: seq<T>, s: seq<T>, p: seq<T>, n: nat)
    requires |s| <= |h| && s == Last(h, |s|) && n <= |s + p|
    ensures Last(s + p, n) == Last(h + p, n)
  {
    assert s + p == Last(h + p, |s + p|);
  }

  /** What `scroll` keeps is the end of the old history with the pushed row. */
  lemma KeptRows(b: Buffer, scrollback: nat)
    requires 0 <= b.ybase < scrollback && b.ybase < |b.lines| && scrollback >= 2
    ensures var kept, all := ScrolledHistory(b, scrollback), b.lines[..b.ybase] + Pushed(b);
            |kept| <= |all| && kept == Last(all, |kept|) && (|kept| == |all| || |kept| >= scrollback / 2 - 1)
  {
    var s := b.lines[..b.ybase];
    assert b.lines[..b.ybase + 1] == s + [b.lines[b.ybase]] && s + [] == s;
  }

  lemma ScrollSplits(b: Buffer, cols: int, rows: int, scrollback: int)
    requires BufferOk(b, cols, rows, scrollback) && scrollback >= 2
    ensures var r, kept := Scroll(b, cols, rows, scrollback), ScrolledHistory(b, scrollback);
            r.ybase == |kept| <= |r.lines| && r.lines[..r.ybase] == kept
  {
    hide LineOk, ShiftUp, ScrolledHistory;
  }

  /** `scroll` appends to the history, whatever it cuts off at the limit. */
  lemma ScrollExtendsHistory(b: Buffer, cols: int, rows: int, scrollback: int, h: seq<Line>)
    requires BufferOk(b, cols, rows, scrollback) && scrollback >= 2 && IsHistory(b, scrollback, h)
    ensures IsHistory(Scroll(b, cols, rows, scrollback), scrollback, h + Pushed(b))
  {
    ScrollSplits(b, cols, rows, scrollback);
    KeptRows(b, scrollback);
    var kept := ScrolledHistory(b, scrollback);
    LastOfAppend(h, b.lines[..b.ybase], Pushed(b), |kept|);
    hide BufferOk, Scroll, ScrolledHistory, Pushed, Last;
  }

  /** The part above the screen stays as it is. */
  predicate SameHistory(b: Buffer, b': Buffer) {
    && 0 <= b.ybase <= |b.lines| && b'.ybase == b.ybase && b.ybase <= |b'.lines|
    && b'.lines[..b.ybase] == b.lines[..b.ybase]
  }

  lemma EditKeepsHistory(s: State, f: char, ps: seq<nat>)
    requires Writing(s) && |ps| > 0
    ensures SameHistory(s.buf, EditedBuffer(s, f, ps))
  {
    EditedKeepsView(s, f, ps);
    var b := EditedBuffer(s, f, ps);
    assert s.buf.ybase <= |s.buf.lines| == |b.lines|;
    forall i | 0 <= i < s.buf.ybase
      ensures b.lines[i] == s.buf.lines[i]
    {
      EditKeepsLine(s, f, ps, i);
    }
    hide Writing, EditedBuffer;
  }

  lemma EditKeepsLine(s: State, f: char, ps: seq<nat>, i: nat)
    requires Writing(s) && |ps| > 0 && i < s.buf.ybase
    ensures var b := EditedBuffer(s, f, ps);
            i < |s.buf.lines| == |b.lines| && b.lines[i] == s.buf.lines[i]
  {
    EditedKeepsView(s, f, ps);
    hide LineOk, PaletteOk, AttrOk;
  }

  // ---------------------------------------------------------------- steps

  /** Whether a step scrolls. */
  predicate ScrollsOn(s: State, ch: char) {
    && s.buf.y + 1 > s.buf.scrollBottom
    && match s.parser.mode
       case Normal => IsLineFeed(ch) || (ch >= ' ' && s.buf.x >= s.cols)
       case Escaped => ch == 'D' || ch == 'E'
       case _ => false
  }

  function PushedBy(s: State, ch: char): seq<Line>
    requires Writing(s)
  {
    if ScrollsOn(s, ch) then Pushed(s.buf) else []
  }

  /** Steps after which the same buffer is still shown at the same width: no reset, buffer switch or resize. */
  predicate KeepsBuffer(s: State, ch: char) {
    !(s.parser.mode == Escaped && ch == 'c')
    && !(s.parser.mode == Csi && Repaints(s.parser.prefix, ch, s.parser.params + [s.parser.currentParam]))
  }

  /** The state's scrollback is the end of the history h. */
  predicate Recorded(s: State, h: seq<Line>) {
    s.env.scrollback >= 2 && IsHistory(s.buf, s.env.scrollback, h)
  }

  lemma SameHistoryIs(s: State, s': State, h: seq<Line>)
    requires Recorded(s, h) && SameHistory(s.buf, s'.buf) && s'.env == s.env
    ensures Recorded(s', h + [])
  {
    assert h + [] == h;
  }

  lemma IndexHistory(s: State, h: seq<Line>)
    requires Writing(s) && Recorded(s, h)
    ensures Recorded(IndexLine(s), h + if s.buf.y + 1 > s.buf.scrollBottom then Pushed(s.buf) else [])
  {
    if s.buf.y + 1 > s.buf.scrollBottom {
      CursorInside(s);
      ScrollExtendsHistory(s.buf, s.cols, s.rows, s.env.scrollback, h);
    } else {
      assert h + [] == h;
    }
    hide Writing, Scroll;
  }

  lemma ReverseKeepsHistory(s: State)
    requires Writing(s)
    ensures SameHistory(s.buf, ReverseIndexLine(s).buf) && ReverseIndexLine(s).env == s.env
  {
    hide LineOk, PaletteOk, AttrOk;
  }

  lemma WrapHistory(s: State, h: seq<Line>)
    requires Writing(s) && Recorded(s, h)
    ensures Recorded(Wrap(s), h + if s.buf.x >= s.cols && s.buf.y + 1 > s.buf.scrollBottom then Pushed(s.buf) else [])
  {
    HomeColumnShape(s);
    IndexHistory(To(s, 0, s.buf.y), h);
    assert h + [] == h;
    hide Writing, IndexLine;
  }

  lemma PutKeepsHistory(b: Buffer, cols: int, rows: int, scrollback: int, c: Cell)
    requires BufferOk(b, cols, rows, scrollback) && b.x < cols
    ensures SameHistory(b, PutCell(b, cols, rows, scrollback, c))
  {
    hide LineOk;
  }

  lemma PrintHistory(s: State, ch: char, h: seq<Line>)
    requires Writing(s) && Recorded(s, h) && s.parser.mode == Normal && ch >= ' ' && !IsLineFeed(ch)
    ensures Recorded(Print(s, ch), h + PushedBy(s, ch))
  {
    WrapHistory(s, h);
    WrapIsOk(s);
    CursorInside(Wrap(s));
    hide Writing, Wrap, BufferOk, PutCell;
    PutKeepsHistory(Wrap(s).buf, s.cols, s.rows, s.env.scrollback,
                    Cell(s.curAttr, if ch in s.charsets.active then s.charsets.active[ch] else ch));
    var pushed := h + PushedBy(s, ch);
    SameHistoryIs(Wrap(s), Print(s, ch), pushed);
    assert pushed + [] == pushed;
  }

  lemma LineFeedHistory(s: State, h: seq<Line>)
    requires Writing(s) && Recorded(s, h)
    ensures Writing(To(s, 0, s.buf.y))
    ensures var pushed := h + if s.buf.y + 1 > s.buf.scrollBottom then Pushed(s.buf) else [];
            Recorded(IndexLine(s), pushed) && Recorded(IndexLine(To(s, 0, s.buf.y)), pushed)
  {
    HomeColumnShape(s);
    IndexHistory(s, h);
    IndexHistory(To(s, 0, s.buf.y), h);
    hide Writing, IndexLine;
  }

  lemma StepNormalHistory(s: State, ch: char, h: seq<Line>)
    requires Writing(s) && s.parser.mode == Normal && Recorded(s, h)
    ensures Recorded(StepNormal(s, ch), h + PushedBy(s, ch))
  {
    hide Writing, IndexLine, Print, NextStop, SetGLevel;
    if IsLineFeed(ch) {
      LineFeedHistory(s, h);
    } else if ch >= ' ' {
      PrintHistory(s, ch, h);
    } else {
      hide StepNormal;
      SameHistoryIs(s, StepNormal(s, ch), h);
    }
  }

  lemma StepEscapedHistory(s: State, ch: char, h: seq<Line>)
    requires Writing(s) && s.parser.mode == Escaped && Recorded(s, h) && ch != 'c'
    ensures Recorded(StepEscaped(s, ch), h + PushedBy(s, ch))
  {
    hide Writing, BufferOk, IndexLine, ReverseIndexLine, Reset, EscapeParser, EscapeCharsets;
    CursorInside(s);
    if ch == 'D' || ch == 'E' {
      LineFeedHistory(s, h);
    } else {
      ReverseKeepsHistory(s);
      SameHistoryIs(s, StepEscaped(s, ch), h);
    }
  }

  lemma ExecuteKeepsHistory(s: State, f: char, ps: seq<nat>)
    requires Writing(s) && |ps| > 0 && !Repaints(s.parser.prefix, f, ps)
    ensures SameHistory(s.buf, Execute(s, f, ps).buf) && Execute(s, f, ps).env == s.env
  {
    hide Writing, BufferOk, Edit, Target, SetModes, ResetModes, Restyle, Reported, Identified;
    CursorInside(s);
    EditHistory(s, f, ps);
    if f == 'h' {
      SetModesSameScreen(s, ps);
    } else if f == 'l' {
      ResetModesSameScreen(s, ps);
    }
  }

  lemma EditHistory(s: State, f: char, ps: seq<nat>)
    requires Writing(s) && |ps| > 0
    ensures 0 <= s.buf.ybase <= |s.buf.lines|
    ensures SameHistory(s.buf, Edit(s, f, ps).buf) && Edit(s, f, ps).env == s.env
  {
    EditKeepsHistory(s, f, ps);
    hide Writing, EditedBuffer, EditDamage;
  }

  lemma StepCsiHistory(s: State, ch: char, h: seq<Line>)
    requires Writing(s) && s.parser.mode == Csi && Recorded(s, h) && KeepsBuffer(s, ch)
    ensures Recorded(StepCsi(s, ch), h + PushedBy(s, ch))
  {
    if !(IsPrefix(ch) || IsDigit(ch) || IsPostfix(ch) || ch == ';') {
      var p := s.parser;
      var ps := p.params + [p.currentParam];
      var t := s.(parser := p.(mode := Normal, params := ps, currentParam := 0));
      PrefixedWriting(s, t);
      ExecuteKeepsHistory(t, ch, ps);
    }
    hide Writing, Execute;
    SameHistoryIs(s, StepCsi(s, ch), h);
  }

  /** No step but a scroll touches the lines above the screen. */
  lemma StepHistory(s: State, ch: char, h: seq<Line>)
    requires Writing(s) && Recorded(s, h) && KeepsBuffer(s, ch)
    ensures Recorded(Step(s, ch), h + PushedBy(s, ch))
  {
    CursorInside(s);
    hide Writing, StepNormal, StepEscaped, StepCsi, DcsReply, DcsParser, OscParser, Guard;
    match s.parser.mode {
      case Normal => StepNormalHistory(s, ch, h);
      case Escaped => StepEscapedHistory(s, ch, h);
      case Csi => StepCsiHistory(s, ch, h);
      case _ => SameHistoryIs(s, Step(s, ch), h);
    }
  }

  // ---------------------------------------------------------------- runs

  /** Every step of the run keeps the buffer. */
  ghost predicate OneBuffer(s: State, data: string)
    requires Writing(s)
    decreases |data|, EscapedRank(s)
  {
    hide Writing, StepNormal, StepCsi, StepOsc, StepCharset, StepDcs, StepIgnore;
    data != [] ==>
      && KeepsBuffer(s, data[0])
      && var s' := Step(s, data[0]);
         StepAdvances(s, data);
         Writing(s') ==> OneBuffer(s', Drop(data, Advance(s.parser.mode, data[0])))
  }

  /** All rows a run pushes off the top of the screen, in order. */
  ghost function PushedByRun(s: State, data: string): seq<Line>
    requires Writing(s)
    decreases |data|, EscapedRank(s)
  {
    hide Writing, StepNormal, StepCsi, StepOsc, StepCharset, StepDcs, StepIgnore, PushedBy;
    if data == [] then []
    else
      var s' := Step(s, data[0]);
      StepAdvances(s, data);
      PushedBy(s, data[0])
      + if Writing(s') then PushedByRun(s', Drop(data, Advance(s.parser.mode, data[0]))) else []
  }

  /**
   Over any guarded run on one buffer, starting from any history: the scrollback is the newest part of all rows
   ever pushed off, shorter than the limit, and at least min(all of them, half the limit less one).
   */
  lemma {:induction false} RunHistory(s: State, data: string, h: seq<Line>)
    requires Writing(s) && Guarded(s, data) && OneBuffer(s, data) && Recorded(s, h)
    ensures Writing(Run(s, data)) && Recorded(Run(s, data), h + PushedByRun(s, data))
    decreases |data|, EscapedRank(s)
  {
    hide Writing, Step, Guard, PushedBy, Recorded, KeepsBuffer;
    if data == [] {
      assert h + [] == h;
    } else {
      StepShape(s, data[0]);
      StepHistory(s, data[0], h);
      StepAdvances(s, data);
      var s', rest := Step(s, data[0]), Drop(data, Advance(s.parser.mode, data[0]));
      RunHistory(s', rest, h + PushedBy(s, data[0]));
      assert h + PushedBy(s, data[0]) + PushedByRun(s', rest) == h + PushedByRun(s, data);
    }
  }

  /** The same for a whole `write`. */
  lemma WriteHistory(s: State, data: string, h: seq<Line>)
    requires Valid(s) && Recorded(s, h) && Guarded(Begin(s), data) && OneBuffer(Begin(s), data)
    ensures Recorded(Write(s, data), h + PushedByRun(Begin(s), data))
    ensures Write(s, data).buf.ybase < Write(s, data).env.scrollback
  {
    var s0 := Begin(s);
    assert Recorded(s0, h) by { hide BufferOk, PaletteOk, AttrOk; }
    RunHistory(s0, data, h);
    FinishKeepsBuffer(Run(s0, data));
    HistoryInside(Run(s0, data));
    hide Writing, Valid, Run, Begin, Finish, PushedByRun, Guarded, OneBuffer, IsHistory;
  }

  lemma FinishKeepsBuffer(s: State)
    requires Writing(s)
    ensures Finish(s).buf == s.buf && Finish(s).env == s.env
  {
    hide BufferOk, PaletteOk, AttrOk;
  }

  lemma HistoryInside(s: State)
    requires Writing(s)
    ensures 0 <= s.buf.ybase <= |s.buf.lines| && s.buf.ybase < s.env.scrollback
  {
    hide LineOk, PaletteOk, AttrOk;
  }
}
