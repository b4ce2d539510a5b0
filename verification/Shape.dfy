/** The shape invariant: which streams and calls keep it. */
module Shape {
  import opened Shifts
  import opened Attributes
  import opened Rendering
  import opened TabStops
  import opened Screen
  import opened Emulator

  /** A buffer that differs in cursor, region and tab stops only. */
  lemma CursorShape(b: Buffer, b': Buffer, cols: int, rows: int, scrollback: int)
    requires BufferOk(b, cols, rows, scrollback)
    requires b' == b.(x := b'.x, y := b'.y, scrollTop := b'.scrollTop, scrollBottom := b'.scrollBottom, tabs := b'.tabs)
    ensures BufferOk(b', cols, rows, scrollback)
       <==> 0 <= b'.x <= cols && 0 <= b'.y < rows && 0 <= b'.scrollTop <= b'.scrollBottom < rows
  {
    hide LineOk;
  }

  /** A state that differs in buffer and damage range only. */
  lemma BufferShape(s: State, s': State)
    requires Writing(s)
    requires s' == s.(buf := s'.buf, paint := s.paint.(start := s'.paint.start, end := s'.paint.end))
    requires 0 <= s'.paint.start <= s'.paint.end < s.rows
    ensures Writing(s') <==> BufferOk(s'.buf, s.cols, s.rows, s.env.scrollback) && s'.buf.ydisp == s'.buf.ybase
  {
    hide BufferOk, PaletteOk, AttrOk;
  }

  lemma CursorInside(s: State)
    requires Writing(s)
    ensures 0 <= s.buf.x <= s.cols && 0 <= s.buf.y < s.rows && 1 <= s.cols
    ensures 0 <= s.buf.scrollTop <= s.buf.scrollBottom < s.rows
    ensures BufferOk(s.buf, s.cols, s.rows, s.env.scrollback) && s.buf.ydisp == s.buf.ybase
    ensures 0 <= s.paint.start <= s.paint.end < s.rows
    ensures 0 <= s.savedX && 0 <= s.savedY && AttrOk(s.curAttr)
    ensures ParserOk(s.parser, s.charsets) && s.env.scrollback >= 2
  {
    hide LineOk, PaletteOk, AttrOk;
  }

  lemma TargetShape(s: State, f: char, ps: seq<nat>)
    requires Writing(s) && |ps| > 0 && IsMove(f)
    ensures var (x, y) := Target(s, f, ps);
            (0 <= x <= s.cols && 0 <= y < s.rows) <==> GuardCsi(s, f, ps)
  {
    CursorInside(s);
    ForwardTabsStayOnScreen(s.buf.tabs, s.cols, s.buf.x, Count(ps));
    BackTabsStayOnScreen(s.buf.tabs, s.buf.x, Count(ps));
    hide Writing, ForwardTabs, BackTabs;
  }

  lemma MoveShape(s: State, f: char, ps: seq<nat>)
    requires Writing(s) && |ps| > 0 && IsMove(f)
    ensures Writing(Execute(s, f, ps)) <==> GuardCsi(s, f, ps)
  {
    CursorInside(s);
    TargetShape(s, f, ps);
    var (x, y) := Target(s, f, ps);
    CursorShape(s.buf, To(s, x, y).buf, s.cols, s.rows, s.env.scrollback);
    BufferShape(s, To(s, x, y));
    hide Writing, GuardCsi, Target;
  }

  lemma EditedBufferShape(s: State, f: char, ps: seq<nat>)
    requires Writing(s) && |ps| > 0 && IsEdit(f)
    ensures BufferOk(EditedBuffer(s, f, ps), s.cols, s.rows, s.env.scrollback) <==> GuardCsi(s, f, ps)
  {
    hide Writing, BufferOk, InsertLines, DeleteLines, ScrollUp, ScrollDown, InsertChars, DeleteChars, EraseChars,
      RepeatChar, EraseInDisplay, EraseInLine;
    CursorInside(s);
    var c, n := Blank(s.curAttr), Count(ps);
    var b, cols, rows, sb := s.buf, s.cols, s.rows, s.env.scrollback;
    if f == 'J' || f == 'K' {
      ErasingIsOk(b, cols, rows, sb, c, ps[0]);
    } else if f == '@' || f == 'P' || f == 'X' {
      CharEditsAreOk(b, cols, rows, sb, c, n);
    } else if f == 'b' {
      RepeatCharIsOk(b, cols, rows, sb, n);
    } else {
      LineShiftsAreOk(b, cols, rows, sb, s.curAttr, n);
    }
  }

  lemma EditDamageShape(s: State, f: char, ps: seq<nat>)
    requires Writing(s) && |ps| > 0
    ensures EditDamage(s, f, ps).Some? ==>
              0 <= EditDamage(s, f, ps).value.0 < s.rows && 0 <= EditDamage(s, f, ps).value.1 < s.rows
  {
    CursorInside(s);
    hide Writing;
  }

  lemma EditShape(s: State, f: char, ps: seq<nat>)
    requires Writing(s) && |ps| > 0 && IsEdit(f)
    ensures Writing(Edit(s, f, ps)) <==> GuardCsi(s, f, ps)
  {
    CursorInside(s);
    EditedBufferShape(s, f, ps);
    EditDamageShape(s, f, ps);
    hide Writing, BufferOk, EditedBuffer, GuardCsi, IsEdit, EditDamage;
    EditedKeepsView(s, f, ps);
    BufferShape(s, Edit(s, f, ps));
  }

  /** Editing leaves the view, the region and the tab stops alone; only REP moves the cursor. */
  lemma EditedKeepsView(s: State, f: char, ps: seq<nat>)
    requires Writing(s) && |ps| > 0
    ensures var b := EditedBuffer(s, f, ps);
            b == s.buf.(lines := b.lines, x := b.x) && |b.lines| == |s.buf.lines|
    ensures IsEdit(f) && f != 'b' ==> EditedBuffer(s, f, ps).x == s.buf.x
  {
    hide LineOk, PaletteOk, AttrOk;
  }

  lemma {:induction false} SetModesShape(s: State, ps: seq<nat>)
    requires Writing(s)
    ensures Writing(SetModes(s, ps))
    decreases |ps|
  {
    hide Writing, SetMode;
    if ps != [] {
      SetModeIsValid(s, ps[0]);
      SetModesShape(SetMode(s, ps[0]), ps[1..]);
    }
  }

  lemma {:induction false} ResetModesShape(s: State, ps: seq<nat>)
    requires Writing(s)
    ensures Writing(ResetModes(s, ps))
    decreases |ps|
  {
    hide Writing, ResetMode;
    if ps != [] {
      ResetModeIsValid(s, ps[0]);
      ResetModesShape(ResetMode(s, ps[0]), ps[1..]);
    }
  }

  lemma TabsShape(s: State, tabs: set<int>)
    requires Writing(s)
    ensures Writing(s.(buf := s.buf.(tabs := tabs)))
  {
    CursorInside(s);
    CursorShape(s.buf, s.buf.(tabs := tabs), s.cols, s.rows, s.env.scrollback);
    hide Writing, BufferOk;
    BufferShape(s, s.(buf := s.buf.(tabs := tabs)));
  }

  lemma SmallShape(s: State, queue: string, x: int, y: int, charsets: Charsets, parser: Parser, title: string)
    requires Writing(s) && 0 <= x && 0 <= y && ParserOk(parser, charsets)
    ensures Writing(s.(queue := queue, savedX := x, savedY := y,
                       charsets := charsets, parser := parser, title := title))
  {
    hide BufferOk, PaletteOk, AttrOk;
  }

  /** A state that differs in attribute and cursor flag only. */
  lemma AttrShape(s: State, attr: bv32, hidden: bool)
    requires Writing(s) && AttrOk(attr)
    ensures Writing(s.(curAttr := attr, cursorHidden := hidden))
  {
    hide BufferOk, PaletteOk, AttrOk;
  }

  lemma SetBufferShape(s: State, f: char, ps: seq<nat>)
    requires Writing(s) && |ps| > 0
    ensures var b := SetBuffer(s.buf, s.rows, s.parser.prefix, f, ps);
            Writing(s.(buf := b)) <==> (f == 'r' ==> GuardCsi(s, f, ps))
  {
    CursorInside(s);
    var b := SetBuffer(s.buf, s.rows, s.parser.prefix, f, ps);
    CursorShape(s.buf, b, s.cols, s.rows, s.env.scrollback);
    BufferShape(s, s.(buf := b));
    hide Writing, BufferOk, RegionTop, RegionBottom;
  }

  lemma SetShape(s: State, f: char, ps: seq<nat>)
    requires Writing(s) && |ps| > 0
    ensures 0 <= s.buf.x && 0 <= s.buf.y && Writing(Set(s, f, ps)) <==> (f == 'r' ==> GuardCsi(s, f, ps))
  {
    CursorInside(s);
    SgrStaysInRange(s.curAttr, ps);
    assert AttrOk(DEF_ATTR);
    SetBufferShape(s, f, ps);
    var t := Set(s, f, ps);
    assert ParserOk(s.parser, t.charsets) && AttrOk(t.curAttr) && 0 <= t.savedX && 0 <= t.savedY by {
      hide Writing, Pack, Unpack, Restyle, AttrOk;
    }
    var t1 := s.(curAttr := t.curAttr, cursorHidden := t.cursorHidden);
    hide Writing, AttrOk, Set, SetBuffer, GuardCsi;
    AttrShape(s, t.curAttr, t.cursorHidden);
    SmallShape(t1, t.queue, t.savedX, t.savedY, t.charsets, s.parser, s.title);
    BuffersAgree(s, t, t1);
  }

  /** Validity of the buffer does not depend on the rest of a state that is valid otherwise. */
  lemma BuffersAgree(s: State, t: State, t1: State)
    requires Writing(s)
    requires Writing(t1.(queue := t.queue, savedX := t.savedX, savedY := t.savedY, charsets := t.charsets))
    requires t1 == s.(curAttr := t.curAttr, cursorHidden := t.cursorHidden)
    requires t == t1.(buf := t.buf, queue := t.queue, savedX := t.savedX, savedY := t.savedY, charsets := t.charsets)
    ensures Writing(t) <==> Writing(s.(buf := t.buf))
  {
    hide BufferOk, PaletteOk, AttrOk;
  }

  lemma ExecuteShape(s: State, f: char, ps: seq<nat>)
    requires Writing(s) && |ps| > 0
    ensures Writing(Execute(s, f, ps)) <==> GuardCsi(s, f, ps)
  {
    CursorInside(s);
    hide Writing, Edit, Target, SetModes, ResetModes, Set, RegionTop, RegionBottom;
    if IsMove(f) {
      MoveShape(s, f, ps);
    } else if IsEdit(f) {
      EditShape(s, f, ps);
    } else if f == 'h' {
      SetModesShape(s, ps);
    } else if f == 'l' {
      ResetModesShape(s, ps);
    } else {
      SetShape(s, f, ps);
    }
  }

  // ---------------------------------------------------------------- steps

  lemma ValidRenders(s: State)
    requires Valid(s)
    ensures Renderable(s)
  {
  }

  lemma ValidWhileWriting(s: State)
    requires Writing(s)
    ensures Valid(s)
  {
  }

  /** The cursor's line is at least as long as the screen is wide. */
  lemma CursorRowInside(s: State)
    requires Writing(s)
    ensures 0 <= s.buf.ybase + s.buf.y < |s.buf.lines| && s.buf.x <= s.cols <= |VisibleLine(s.buf, s.buf.y)|
  {
    hide PaletteOk, AttrOk;
    assert LineOk(VisibleLine(s.buf, s.buf.y), s.cols);
  }

  lemma CommandReady(s: State, ps: seq<nat>)
    requires Writing(s)
    ensures Writing(s.(parser := s.parser.(mode := Normal, params := ps, currentParam := 0)))
  {
    hide BufferOk, PaletteOk, AttrOk;
  }

  lemma ResetParser(s: State)
    requires Writing(s)
    ensures Reset(s).parser == INITIAL_PARSER
  {
    hide BufferOk, PaletteOk, AttrOk, RenderRow, FreshBuffer;
    FreshIsOk(s);
  }

  lemma CharsetsAreFour(s: State)
    requires Writing(s)
    ensures |s.charsets.tables| == 4
  {
    hide BufferOk, PaletteOk, AttrOk;
  }

  lemma ScreenInside(s: State)
    requires Writing(s)
    ensures 0 <= s.buf.ybase && |s.buf.lines| == s.buf.ybase + s.rows && |s.paint.children| == s.rows
  {
    hide LineOk, PaletteOk, AttrOk;
  }

  /** The two cases of `index`. */
  lemma IndexLineIs(s: State)
    requires Writing(s)
    ensures BufferOk(s.buf, s.cols, s.rows, s.env.scrollback) && s.env.scrollback >= 2
    ensures IndexLine(s)
         == if s.buf.y + 1 > s.buf.scrollBottom
            then Touch(Touch(s.(buf := Scroll(s.buf, s.cols, s.rows, s.env.scrollback)), s.buf.scrollTop),
                       s.buf.scrollBottom)
            else s.(buf := s.buf.(y := s.buf.y + 1))
  {
    hide Writing, BufferOk, Scroll;
    CursorInside(s);
  }

  lemma LineFeedShape(s: State)
    requires Writing(s)
    ensures Writing(To(s, 0, s.buf.y)) && Writing(IndexLine(s)) && Writing(IndexLine(To(s, 0, s.buf.y)))
    ensures Writing(ReverseIndexLine(s))
  {
    HomeColumnShape(s);
    ReverseIndexShape(s);
    hide Writing, IndexLine, ReverseIndexLine;
    IndexLineIsOk(s);
    IndexLineIsOk(To(s, 0, s.buf.y));
  }

  lemma HomeColumnShape(s: State)
    requires Writing(s)
    ensures Writing(To(s, 0, s.buf.y))
  {
    CursorInside(s);
    ColumnShape(s, 0);
  }

  lemma ReverseIndexShape(s: State)
    requires Writing(s)
    ensures Writing(ReverseIndexLine(s))
  {
    CursorInside(s);
    LineShiftsAreOk(s.buf, s.cols, s.rows, s.env.scrollback, s.curAttr, 1);
    ReverseKeepsView(s);
    hide Writing, BufferOk, ReverseIndex;
    BufferShape(s, ReverseIndexLine(s));
  }

  lemma ReverseKeepsView(s: State)
    requires Writing(s)
    ensures var b := ReverseIndex(s.buf, s.cols, s.rows, s.env.scrollback, s.curAttr);
            b == s.buf.(lines := b.lines, y := b.y)
  {
    hide LineOk, PaletteOk, AttrOk;
  }

  lemma PrintShape(s: State, ch: char)
    requires Writing(s)
    ensures Writing(Print(s, ch))
  {
    WrapIsOk(s);
    var s', ch' := Wrap(s), if ch in s.charsets.active then s.charsets.active[ch] else ch;
    CursorInside(s');
    var c := Cell(s.curAttr, ch');
    assert CellOk(c);
    PutCellIsOk(s'.buf, s.cols, s.rows, s.env.scrollback, c);
    hide Writing, BufferOk, CellOk, Wrap;
    BufferShape(s', Print(s, ch));
  }

  lemma ColumnShape(s: State, column: int)
    requires Writing(s) && 0 <= column <= s.cols
    ensures Writing(To(s, column, s.buf.y))
  {
    CursorInside(s);
    CursorShape(s.buf, To(s, column, s.buf.y).buf, s.cols, s.rows, s.env.scrollback);
    hide Writing, BufferOk;
    BufferShape(s, To(s, column, s.buf.y));
  }

  lemma StepNormalShape(s: State, ch: char)
    requires Writing(s)
    ensures Writing(StepNormal(s, ch))
  {
    CursorInside(s);
    hide Writing, BufferOk, IndexLine, Print, NextStop;
    if ch >= ' ' {
      PrintShape(s, ch);
    } else if ch == SO || ch == SI {
      SmallShape(s, s.queue, s.savedX, s.savedY, SetGLevel(s.charsets, if ch == SO then 1 else 0), s.parser, s.title);
    } else if ch == ESC {
      InModeShape(s, Escaped);
    } else if ch == BS || ch == '\t' {
      NextStopIsLeast(s.buf.tabs, s.cols, s.buf.x);
      ColumnShape(s, if ch == BS then Max(0, s.buf.x - 1) else NextStop(s.buf.tabs, s.cols, s.buf.x));
    } else {
      LineFeedShape(s);
    }
  }

  lemma InModeShape(s: State, mode: Mode)
    requires Writing(s) && (mode == Charset ==> 0 <= s.charsets.gcharset < 4)
    ensures Writing(InMode(s, mode))
  {
    hide BufferOk, PaletteOk, AttrOk;
  }

  lemma RestoreShape(s: State)
    requires Writing(s)
    ensures Writing(InMode(To(s, s.savedX, s.savedY), Normal)) <==> s.savedX <= s.cols && s.savedY < s.rows
  {
    CursorInside(s);
    var t := To(s, s.savedX, s.savedY);
    CursorShape(s.buf, t.buf, s.cols, s.rows, s.env.scrollback);
    BufferShape(s, t);
    hide BufferOk, PaletteOk, AttrOk;
  }

  lemma ScreenEscapeShape(s: State, ch: char)
    requires Writing(s) && IsScreenEscape(ch)
    ensures Writing(ScreenEscape(s, ch))
  {
    hide Writing, IndexLine, ReverseIndexLine, Reset;
    if ch == 'c' {
      SwitchIsValid(s);
    } else {
      LineFeedShape(s);
      InModeShape(IndexLine(s), Normal);
      InModeShape(IndexLine(To(s, 0, s.buf.y)), Normal);
      InModeShape(ReverseIndexLine(s), Normal);
    }
  }

  lemma StepEscapedShape(s: State, ch: char)
    requires Writing(s) && s.parser.mode == Escaped
    ensures Writing(StepEscaped(s, ch)) <==> Guard(s, ch)
  {
    hide Writing, ScreenEscape;
    CursorInside(s);
    if IsScreenEscape(ch) {
      ScreenEscapeShape(s, ch);
    } else if ch == '8' {
      RestoreShape(s);
    } else if ch == 'H' {
      TabsShape(s, s.buf.tabs + {s.buf.x});
      InModeShape(s.(buf := s.buf.(tabs := s.buf.tabs + {s.buf.x})), Normal);
    } else {
      var t := SettingEscape(s, ch);
      assert ParserOk(t.parser, t.charsets);
      hide EscapeParser, EscapeCharsets;
      SmallShape(s, s.queue, t.savedX, t.savedY, t.charsets, t.parser, s.title);
    }
  }

  lemma StepCharsetShape(s: State, ch: char)
    requires Writing(s) && s.parser.mode == Charset
    ensures Writing(StepCharset(s, ch))
  {
    var t := StepCharset(s, ch);
    hide BufferOk, PaletteOk, AttrOk;
    SmallShape(s, s.queue, s.savedX, s.savedY, t.charsets, t.parser, s.title);
  }

  lemma StepOscShape(s: State, ch: char)
    requires Writing(s) && s.parser.mode == Osc
    ensures Writing(StepOsc(s, ch))
  {
    CursorInside(s);
    var t := StepOsc(s, ch);
    hide Writing;
    SmallShape(s, t.queue, s.savedX, s.savedY, s.charsets, t.parser, t.title);
  }

  lemma StepDcsShape(s: State, ch: char)
    requires Writing(s) && s.parser.mode == Dcs
    ensures Writing(StepDcs(s, ch))
  {
    CursorInside(s);
    var t := StepDcs(s, ch);
    hide Writing, DcsReply;
    SmallShape(s, t.queue, s.savedX, s.savedY, s.charsets, t.parser, t.title);
  }

  lemma StepCsiShape(s: State, ch: char)
    requires Writing(s) && s.parser.mode == Csi
    ensures Writing(StepCsi(s, ch)) <==> Guard(s, ch)
  {
    assert ParserOk(s.parser, s.charsets);
    if IsPrefix(ch) || IsDigit(ch) || IsPostfix(ch) || ch == ';' {
      var t := StepCsi(s, ch);
      hide Writing, Execute;
      SmallShape(s, s.queue, s.savedX, s.savedY, s.charsets, t.parser, s.title);
    } else {
      var p := s.parser;
      var ps := p.params + [p.currentParam];
      var p' := p.(mode := Normal, params := ps, currentParam := 0);
      SmallShape(s, s.queue, s.savedX, s.savedY, s.charsets, p', s.title);
      var t := s.(parser := p');
      ExecuteShape(t, ch, ps);
      assert GuardCsi(t, ch, ps) == GuardCsi(s, ch, ps);
      var u := Execute(t, ch, ps);
      PrefixIrrelevant(u, "");
      hide Writing, Execute, GuardCsi;
    }
  }

  lemma PrefixIrrelevant(s: State, prefix: string)
    ensures Writing(s.(parser := s.parser.(prefix := prefix))) <==> Writing(s)
  {
    hide BufferOk, PaletteOk, AttrOk;
  }

  /** One character keeps the shape exactly when its guard holds. */
  lemma StepShape(s: State, ch: char)
    requires Writing(s)
    ensures Writing(Step(s, ch)) <==> Guard(s, ch)
  {
    hide Writing, StepNormal, StepEscaped, StepCsi, StepCharset, StepOsc, StepDcs;
    match s.parser.mode {
      case Normal => StepNormalShape(s, ch);
      case Escaped => StepEscapedShape(s, ch);
      case Csi => StepCsiShape(s, ch);
      case Charset => StepCharsetShape(s, ch);
      case Osc => StepOscShape(s, ch);
      case Dcs => StepDcsShape(s, ch);
      case Ignore => InModeShape(s, Normal);
    }
  }

  // ---------------------------------------------------------------- runs and calls

  /** A run keeps the shape exactly when every one of its steps meets its guard. */
  lemma {:induction false} RunShape(s: State, data: string)
    requires Writing(s)
    ensures Writing(Run(s, data)) <==> Guarded(s, data)
    decreases |data|, EscapedRank(s)
  {
    if data != [] {
      StepShape(s, data[0]);
      var s', rest := Step(s, data[0]), Drop(data, Advance(s.parser.mode, data[0]));
      if Writing(s') {
        StepAdvances(s, data);
        RunShape(s', rest);
      }
    }
    hide Writing, Step, Guard;
  }

  lemma RunEnds(s: State)
    requires Writing(s)
    ensures Run(s, "") == s
  {
    hide Writing;
  }

  /** The first character of a text, when it is the only one its step takes. */
  lemma RunStep(s: State, ch: char, rest: string)
    requires Writing(s) && Advance(s.parser.mode, ch) == 1 && Writing(Step(s, ch))
    ensures Run(s, [ch] + rest) == Run(Step(s, ch), rest)
  {
    hide Writing, Step;
    assert Drop([ch] + rest, 1) == rest;
  }

  /** Every step consumes a character or leaves the state `escaped`. */
  lemma StepAdvances(s: State, data: string)
    requires Writing(s) && data != []
    ensures var rest := Drop(data, Advance(s.parser.mode, data[0]));
            |rest| < |data| || (rest == data && EscapedRank(Step(s, data[0])) < EscapedRank(s))
  {
    hide Writing, StepNormal, StepCsi, StepCharset, StepOsc, StepDcs, StepIgnore;
  }

  lemma FinishShape(s: State)
    requires Writing(s)
    ensures Writing(Finish(s))
  {
    CursorInside(s);
    hide BufferOk, PaletteOk, AttrOk;
  }

  /** `write` keeps the shape exactly on guarded streams, and then leaves the view at the bottom. */
  lemma WriteShape(s: State, data: string)
    requires Valid(s)
    ensures Writing(Write(s, data)) <==> Guarded(Begin(s), data)
  {
    RunShape(Begin(s), data);
    var s' := Run(Begin(s), data);
    if Writing(s') {
      FinishShape(s');
      assert Writing(Finish(s'));
    }
    hide Run, Guarded, Begin, Finish;
  }
}
