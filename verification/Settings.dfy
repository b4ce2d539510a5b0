/** What the remaining commands set, as a program on the other end sees it. */
module Settings {
  import opened Options
  import opened Shifts
  import opened Attributes
  import opened Rendering
  import opened TabStops
  import opened Screen
  import opened Emulator
  import opened Shape
  import opened Damage
  import opened ControlSequences
  import opened SmallTexts
  import opened Commands
  import opened Printing
  import opened Moving
  import Sessions
  import Titles

  // ---------------------------------------------------------------- escape sequences

  /** An escape sequence of one character. */
  lemma EscapeOne(s: State, ch: char)
    requires Ready(s) && Advance(Escaped, ch) == 1 && Writing(InMode(s, Escaped))
    requires Writing(StepEscaped(InMode(s, Escaped), ch))
    ensures Run(s, [ESC, ch]) == StepEscaped(InMode(s, Escaped), ch)
  {
    hide Writing, Run, StepEscaped;
    var e := InMode(s, Escaped);
    assert [ESC, ch] == [ESC] + [ch] && [ch] == [ch] + "";
    RunStep(s, ESC, [ch]);
    RunStep(e, ch, "");
    RunEnds(StepEscaped(e, ch));
  }

  lemma EscapedShape(s: State)
    requires Ready(s)
    ensures Writing(InMode(s, Escaped))
  {
    hide Writing;
    InModeShape(s, Escaped);
  }

  // ---------------------------------------------------------------- line feeds

  /** From s to t the cursor went to column x of the next row, or stayed in its row while the region moved up. */
  ghost predicate FeedsLine(s: State, t: State, x: int)
    requires Writing(s)
  {
    Sizes(s);
    && t == s.(buf := t.buf, paint := t.paint, parser := t.parser)
    && if s.buf.y < s.buf.scrollBottom then t.buf == s.buf.(x := x, y := s.buf.y + 1)
       else
         && t.buf == s.buf.(x := x, lines := t.buf.lines, ybase := t.buf.ybase, ydisp := t.buf.ybase)
         && 0 <= t.buf.ybase && |t.buf.lines| == t.buf.ybase + s.rows
         && HistoryMoves(s, t.buf)
         && forall k | 0 <= k < s.rows :: VisibleLine(t.buf, k) == Printing.MovedUp(s, k)
  }

  lemma IndexFeeds(s: State)
    requires Writing(s)
    ensures FeedsLine(s, IndexLine(s), s.buf.x)
  {
    hide Writing, BufferOk, Scroll, IndexLine, Printing.MovedUp;
    Sizes(s);
    IndexLineIs(s);
    ScrolledRows(s);
  }

  lemma HomeFeeds(s: State)
    requires Writing(s)
    ensures Writing(To(s, 0, s.buf.y)) && FeedsLine(s, IndexLine(To(s, 0, s.buf.y)), 0)
  {
    hide Writing, IndexLine, Printing.MovedUp;
    HomeColumnShape(s);
    var h := To(s, 0, s.buf.y);
    IndexFeeds(h);
    Sizes(s);
    forall k | 0 <= k < s.rows
      ensures Printing.MovedUp(h, k) == Printing.MovedUp(s, k)
    {
      HomeMoves(s, k);
    }
  }

  /** LF, VT and FF keep the column unless line ends are converted; IND keeps it, and NEL goes to the first column. */
  lemma LineFeeds(s: State)
    requires Ready(s)
    ensures var x := if s.convertEol then 0 else s.buf.x;
            && FeedsLine(s, Run(s, [10 as char]), x)
            && FeedsLine(s, Run(s, [11 as char]), x)
            && FeedsLine(s, Run(s, [12 as char]), x)
    ensures FeedsLine(s, Run(s, [27 as char, 'D']), s.buf.x)
    ensures FeedsLine(s, Run(s, [27 as char, 'E']), 0)
  {
    hide Writing, Run, IndexLine, FeedsLine, NextStop, SetGLevel, Print;
    IndexFeeds(s);
    HomeFeeds(s);
    ControlRun(s, '\n');
    ControlRun(s, VT);
    ControlRun(s, FF);
    EscapeRun(s, 'D', "");
    assert [ESC, 'D'] + "" == [ESC, 'D'];
    RunEnds(IndexLine(s));
    NextLine(s);
  }

  lemma NextLine(s: State)
    requires Ready(s)
    ensures FeedsLine(s, Run(s, [ESC, 'E']), 0)
  {
    hide Writing, Run, IndexLine, ReverseIndexLine, Reset, FeedsLine;
    EscapedShape(s);
    var e := InMode(s, Escaped);
    HomeColumnShape(e);
    HomeFeeds(e);
    LineFeedShape(e);
    InModeShape(IndexLine(To(e, 0, e.buf.y)), Normal);
    EscapeOne(s, 'E');
    FeedsAnyParser(s, e, IndexLine(To(e, 0, e.buf.y)), Normal);
  }

  lemma FeedsAnyParser(s: State, e: State, t: State, mode: Mode)
    requires Writing(s) && Writing(e) && e == s.(parser := e.parser) && FeedsLine(e, t, 0)
    ensures FeedsLine(s, InMode(t, mode), 0)
  {
    hide Writing;
    Sizes(s);
    assert forall k | 0 <= k < s.rows :: Printing.MovedUp(e, k) == Printing.MovedUp(s, k);
  }

  /** RI goes one row up, or moves the rows from the cursor to the bottom margin down by one. */
  lemma ReverseFeeds(s: State)
    requires Ready(s)
    ensures var t := Run(s, [27 as char, 'M']);
            && t == s.(buf := t.buf, paint := t.paint)
            && if s.buf.scrollTop < s.buf.y then t.buf == s.buf.(y := s.buf.y - 1)
               else MovedDown(s.buf, t.buf, s.buf.ybase + s.buf.y, s.buf.ybase + s.buf.scrollBottom, 1, s.cols,
                              s.curAttr)
  {
    hide Writing, Run, BufferOk, BlankLine, ShiftDown, MovedDown;
    Sizes(s);
    EscapeRun(s, 'M', "");
    assert [ESC, 'M'] + "" == [ESC, 'M'];
    RunEnds(ReverseIndexLine(s));
    ShiftsMove(s.buf, s.buf.ybase + s.buf.y, Max(s.buf.ybase + s.buf.y, s.buf.ybase + s.buf.scrollBottom + 1), 1,
               s.cols, s.curAttr);
  }

  // ---------------------------------------------------------------- tab stops

  /** HTS adds the cursor's column to the stops; TBC 0 takes it away, TBC 3 takes all away, others do nothing. */
  lemma TabStopCommands(s: State, n: nat)
    requires Ready(s)
    ensures var t := Run(s, [27 as char, 'H']); t == s.(buf := s.buf.(tabs := s.buf.tabs + {s.buf.x}))
    ensures var t := Run(s, Command(n, 'g'));
            && t == s.(buf := s.buf.(tabs := t.buf.tabs), parser := t.parser)
            && t.buf.tabs == if n == 0 then s.buf.tabs - {s.buf.x} else if n == 3 then {} else s.buf.tabs
  {
    hide Writing, Run, Restyle, Reported, Identified, EscapeCharsets;
    EscapedShape(s);
    var e := InMode(s, Escaped);
    CharsetsAreFour(s);
    TabSetIs(e);
    StepEscapedShape(e, 'H');
    EscapeOne(s, 'H');
    SetRun(s, 'g', "", [n]);
  }

  lemma TabSetIs(e: State)
    requires Writing(e) && e.parser.mode == Escaped && e.parser.prefix == ""
    ensures StepEscaped(e, 'H')
         == e.(buf := e.buf.(tabs := e.buf.tabs + {e.buf.x}), parser := e.parser.(mode := Normal))
  {
    hide Writing;
    CharsetsAreFour(e);
  }

  /** The commands that set one thing, printed and parsed. */
  lemma SetRun(s: State, f: char, prefix: string, ps: seq<nat>)
    requires Ready(s) && |ps| > 0 && PrefixText(prefix) && IsFinal(f)
    requires !IsMove(f) && !IsEdit(f) && f != 'h' && f != 'l'
    ensures 0 <= s.buf.x && 0 <= s.buf.y
    ensures Run(s, Sequence(prefix, ps, f))
         == Set(s.(parser := Parser(Normal, ps, 0, "", prefix)), f, ps).(parser := Parser(Normal, ps, 0, "", ""))
  {
    hide Writing, Run, Sequence, SetBuffer, Restyle, Reported, Identified, PrefixText, IsMove, IsEdit, IsFinal, Edit,
      Move;
    CursorInside(s);
    OneSequence(s, prefix, ps, f);
    ExecutingShape(s, prefix, ps);
  }

  // ---------------------------------------------------------------- scroll region and soft reset

  /** DECSTBM sets rows top to bottom, counted from one, zero meaning the edge of the screen, and homes the cursor. */
  lemma ScrollRegion(s: State, top: nat, bottom: nat)
    requires Ready(s)
    ensures var t := Run(s, Sequence("", [top, bottom], 'r'));
            && t == s.(buf := t.buf, parser := t.parser)
            && t.buf == s.buf.(scrollTop := (if top == 0 then 1 else top) - 1,
                               scrollBottom := (if bottom == 0 then s.rows else bottom) - 1, x := 0, y := 0)
  {
    hide Writing, Run, Sequence, Restyle, Reported, Identified;
    SetRun(s, 'r', "", [top, bottom]);
  }

  /**
   DECSTR shows the cursor, frees the region, homes the cursor and goes back to default attribute and character sets.
   */
  lemma SoftResets(s: State, n: nat)
    requires Ready(s)
    ensures var t := Run(s, Sequence("!", [n], 'p'));
            && t == s.(buf := t.buf, curAttr := (257 << 9) | 256, cursorHidden := false, charsets := t.charsets,
                       parser := t.parser)
            && t.buf == s.buf.(scrollTop := 0, scrollBottom := s.rows - 1, x := 0, y := 0)
            && t.charsets.active == map[] && t.charsets.glevel == 0 && t.charsets.tables == [map[], map[], map[], map[]]
  {
    hide Writing, Run, Sequence, Restyle, Reported, Identified;
    SetRun(s, 'p', "!", [n]);
  }

  // ---------------------------------------------------------------- reports

  /** DSR 5 answers that all is well; parameters other than 5 and 6, and 5 with a prefix, are silent. */
  lemma StatusReports(s: State, n: nat)
    requires Ready(s)
    ensures Run(s, Command(5, 'n')).queue == s.queue + [27 as char] + "[0n"
    ensures n != 5 && n != 6 ==> Run(s, Command(n, 'n')).queue == s.queue
    ensures n != 6 ==> Run(s, Sequence("?", [n], 'n')).queue == s.queue
  {
    hide Writing, Run, Sequence, Restyle, SetBuffer, CursorReport;
    SetRun(s, 'n', "", [5]);
    SetRun(s, 'n', "", [n]);
    SetRun(s, 'n', "?", [n]);
    assert s.queue + ([ESC] + "[0n") == s.queue + [ESC] + "[0n";
  }

  /** DSR ? 6 answers with row and column as DSR 6 does, with a question mark. */
  lemma PrivateReport(s: State)
    requires Ready(s)
    ensures 0 <= s.buf.x && 0 <= s.buf.y
    ensures var t := Run(s, Sequence("?", [6], 'n'));
            && t == s.(queue := t.queue, parser := t.parser)
            && t.queue == s.queue + ([27 as char] + "[?" + (Decimal(s.buf.y + 1) + ";" + Decimal(s.buf.x + 1) + "R"))
  {
    hide Writing, Run, Sequence, Restyle, Decimal;
    SetRun(s, 'n', "?", [6]);
    assert [27 as char] + "[?" == [ESC] + "[?";
    assert [ESC] + "[?" + CursorReport(s.buf.x, s.buf.y)
        == [27 as char] + "[?" + (Decimal(s.buf.y + 1) + ";" + Decimal(s.buf.x + 1) + "R");
  }

  /** DA 0 answers with the identification that its prefix asks for; other parameters are silent. */
  lemma Identifications(s: State, n: nat)
    requires Ready(s)
    ensures Run(s, Command(0, 'c')).queue == s.queue + s.env.primaryId
    ensures Run(s, Sequence(">", [0], 'c')).queue == s.queue + s.env.secondaryId
    ensures n != 0 ==> Run(s, Command(n, 'c')).queue == s.queue == Run(s, Sequence(">", [n], 'c')).queue
  {
    hide Writing, Run, Sequence, Restyle, SetBuffer, Reported;
    SetRun(s, 'c', "", [0]);
    SetRun(s, 'c', ">", [0]);
    SetRun(s, 'c', "", [n]);
    SetRun(s, 'c', ">", [n]);
  }

  // ---------------------------------------------------------------- modes

  /** Mode 25 set shows the cursor, and reset hides it. */
  lemma CursorMode(s: State)
    requires Ready(s)
    ensures var t := Run(s, SwitchOn(25)); t == s.(cursorHidden := false, parser := t.parser)
    ensures var t := Run(s, SwitchOff(25)); t == s.(cursorHidden := true, parser := t.parser)
  {
    hide Writing, Run, Sequence;
    ChangeAlone(s, 'h', 25);
    ChangeAlone(s, 'l', 25);
  }

  lemma ChangeAlone(s: State, f: char, p: nat)
    requires Ready(s) && (f == 'h' || f == 'l')
    ensures Run(s, Sequence("?", [p], f)) == Changed(s, f, p)
  {
    hide Writing, Run, Sequence, Changed;
    ChangeRun(s, f, p, "");
    assert Sequence("?", [p], f) + "" == Sequence("?", [p], f);
    RunEnds(Changed(s, f, p));
  }

  /** Mode 2 set puts all four character sets back to ASCII. */
  lemma AsciiMode(s: State)
    requires Ready(s)
    ensures var t := Run(s, SwitchOn(2));
            && t == s.(charsets := t.charsets, parser := t.parser)
            && t.charsets.tables == [map[], map[], map[], map[]]
            && (0 <= s.charsets.glevel < 4 ==> t.charsets.active == map[])
  {
    hide Writing, Run, Sequence;
    CharsetsAreFour(s);
    ChangeAlone(s, 'h', 2);
  }

  /** All other private modes change nothing that is modelled. */
  lemma OtherPrivateModes(s: State, f: char, p: nat)
    requires Ready(s) && (f == 'h' || f == 'l') && p != 3 && p != 25 && p != 47 && p != 1047 && p != 1049
    requires f == 'h' ==> p != 2
    ensures Run(s, Sequence("?", [p], f)) == s.(parser := Parser(Normal, [p], 0, "", ""))
  {
    hide Writing, Run, Sequence;
    ChangeAlone(s, f, p);
    ExecutingShape(s, "?", [p]);
  }

  /** Nor do modes without a prefix. */
  lemma PublicModes(s: State, f: char, ps: seq<nat>)
    requires Ready(s) && (f == 'h' || f == 'l') && |ps| > 0
    ensures Run(s, Sequence("", ps, f)) == s.(parser := Parser(Normal, ps, 0, "", ""))
  {
    hide Writing, Run, Sequence, Edit, Target, Set, SetModes, ResetModes;
    OneSequence(s, "", ps, f);
    ExecutingShape(s, "", ps);
    var u := s.(parser := Parser(Normal, ps, 0, "", ""));
    ModesIgnoreParser(u, u, f, ps);
  }

  /** Two states that differ in the parser only. */
  predicate SameButParser(s: State, u: State) {
    u == s.(parser := u.parser)
  }

  lemma ResizeIgnoresParser(s: State, u: State, x: int, y: int)
    requires Valid(s) && Valid(u) && SameButParser(s, u)
    ensures SameButParser(Resize(s, x, y), Resize(u, x, y)) && Resize(s, x, y).parser == s.parser
    ensures Resize(u, x, y).parser == u.parser
  {
    hide BufferOk, PaletteOk, AttrOk, RenderLine, ResizeBuffer, Fit;
    ResizedIsOk(s, Max(x, 1), Max(y, 1));
    ResizedIsOk(u, Max(x, 1), Max(y, 1));
    RefreshIgnoresParser(Resized(s, Max(x, 1), Max(y, 1)), Resized(u, Max(x, 1), Max(y, 1)));
  }

  lemma RefreshIgnoresParser(s: State, u: State)
    requires Renderable(s) && Renderable(u) && SameButParser(s, u)
    ensures SameButParser(RefreshAll(s), RefreshAll(u))
    ensures Renderable(RefreshAll(s)) && Renderable(RefreshAll(u))
    ensures SameButParser(ShowCursor(s), ShowCursor(u))
  {
    hide BufferOk, PaletteOk, RenderLine;
    assert RefreshAll(s).paint.children == RefreshAll(u).paint.children;
    assert ShowCursor(s).paint.children == ShowCursor(u).paint.children;
  }

  lemma LeaveIgnoresParser(s: State, u: State)
    requires Writing(s) && Writing(u) && SameButParser(s, u)
    ensures SameButParser(LeaveAlternate(s), LeaveAlternate(u))
    ensures LeaveAlternate(s).parser == s.parser && LeaveAlternate(u).parser == u.parser
  {
    hide PaletteOk, AttrOk, RenderRow, LineOk;
    if s.normal.Some? {
      var s', u' := s.(buf := s.normal.value, normal := None), u.(buf := u.normal.value, normal := None);
      RefreshIgnoresParser(s', u');
      RefreshIgnoresParser(RefreshAll(s'), RefreshAll(u'));
    }
  }

  lemma InsideAlready(s: State)
    requires Writing(s)
    ensures s.normal.Some? ==> EnterAlternate(s) == s
  {
    hide Writing, Reset;
  }

  /** A mode change looks at the prefix of the parser and at nothing else of it. */
  lemma ModeIgnoresParser(s: State, u: State, f: char, p: nat)
    requires Writing(s) && Writing(u) && SameButParser(s, u) && s.parser.prefix == u.parser.prefix
    requires f == 'h' || f == 'l'
    ensures var a, b := ChangeMode(s, f, p), ChangeMode(u, f, p);
            SameButParser(a, b) && a.parser.prefix == b.parser.prefix
    ensures ChangeMode(s, f, p).parser == s.parser || (f == 'h' && IsAlternate(p) && s.normal.None?)
  {
    hide Writing, SetMode, ResetMode;
    if f == 'h' {
      SetIgnoresParser(s, u, p);
    } else {
      ResetIgnoresParser(s, u, p);
    }
  }

  lemma SetIgnoresParser(s: State, u: State, p: nat)
    requires Writing(s) && Writing(u) && SameButParser(s, u) && s.parser.prefix == u.parser.prefix
    ensures var a, b := SetMode(s, p), SetMode(u, p); SameButParser(a, b) && a.parser.prefix == b.parser.prefix
    ensures SetMode(s, p).parser == s.parser || (IsAlternate(p) && s.normal.None?)
  {
    hide Writing, Valid, Resize, EnterAlternate, AllAscii;
    if p == 3 {
      WideValid(s);
      WideValid(u);
      ResizeIgnoresParser(s.(savedCols := Some(s.cols)), u.(savedCols := Some(u.cols)), 132, s.rows);
    } else if s.normal.None? {
      EnterIgnoresParser(s, u);
    } else {
      InsideAlready(s);
      InsideAlready(u);
    }
  }

  lemma ResetIgnoresParser(s: State, u: State, p: nat)
    requires Writing(s) && Writing(u) && SameButParser(s, u) && s.parser.prefix == u.parser.prefix
    ensures var a, b := ResetMode(s, p), ResetMode(u, p); SameButParser(a, b) && a.parser.prefix == b.parser.prefix
    ensures ResetMode(s, p).parser == s.parser
  {
    hide Writing, Valid, Resize, LeaveAlternate;
    if p == 3 {
      WideValid(s);
      WideValid(u);
      if s.savedCols.Some? {
        ResizeIgnoresParser(s, u, s.savedCols.value, s.rows);
      }
    } else {
      LeaveIgnoresParser(s, u);
    }
  }

  function ChangeModes(s: State, f: char, ps: seq<nat>): State
    requires Writing(s)
  {
    if f == 'h' then SetModes(s, ps) else ResetModes(s, ps)
  }

  lemma {:induction false} ModesIgnoreParser(s: State, u: State, f: char, ps: seq<nat>)
    requires Writing(s) && Writing(u) && SameButParser(s, u) && s.parser.prefix == u.parser.prefix
    requires f == 'h' || f == 'l'
    ensures SameButParser(ChangeModes(s, f, ps), ChangeModes(u, f, ps))
    ensures s.parser.prefix != "?" ==> ChangeModes(s, f, ps) == s
    decreases |ps|
  {
    hide Writing, Resize, EnterAlternate, LeaveAlternate, AllAscii;
    if ps != [] {
      ModeIgnoresParser(s, u, f, ps[0]);
      ModesIgnoreParser(ChangeMode(s, f, ps[0]), ChangeMode(u, f, ps[0]), f, ps[1..]);
    }
  }

  lemma ModesRun(s: State, f: char, ps: seq<nat>)
    requires Ready(s) && |ps| > 0 && (f == 'h' || f == 'l')
    ensures Writing(s.(parser := Parser(Normal, ps, 0, "", "?")))
    ensures var t := Run(s, Sequence("?", ps, f));
            Ready(t) && SameButParser(ChangeModes(s.(parser := Parser(Normal, ps, 0, "", "?")), f, ps), t)
  {
    hide Writing, Run, Sequence, SetModes, ResetModes, Edit, Target, Set;
    OneSequence(s, "?", ps, f);
    ExecutingShape(s, "?", ps);
    var u := s.(parser := Parser(Normal, ps, 0, "", "?"));
    SetModesShape(u, ps);
    ResetModesShape(u, ps);
    PrefixIrrelevant(ChangeModes(u, f, ps), "");
  }

  /**
   A list of modes does what its modes do one by one, except that entering the alternate screen ends it: the rest of the
   list is ignored.
   */
  lemma ModesOneByOne(s: State, f: char, p: nat, ps: seq<nat>)
    requires Ready(s) && |ps| > 0 && (f == 'h' || f == 'l')
    ensures Ready(Run(s, Sequence("?", [p], f)))
    ensures var all, one := Run(s, Sequence("?", [p] + ps, f)), Run(s, Sequence("?", [p], f));
            if f == 'h' && (p == 47 || p == 1047 || p == 1049) && s.normal.None? then SameButParser(one, all)
            else SameButParser(Run(one, Sequence("?", ps, f)), all)
  {
    hide Writing, Run, Sequence, ChangeMode, EnterAlternate;
    var u, v := s.(parser := Parser(Normal, [p] + ps, 0, "", "?")), s.(parser := Parser(Normal, [p], 0, "", "?"));
    ModesRun(s, f, [p] + ps);
    ModesRun(s, f, [p]);
    var one := Run(s, Sequence("?", [p], f));
    ModesRun(one, f, ps);
    ModeIgnoresParser(u, v, f, p);
    ModeIgnoresParser(v, v, f, p);
    FirstMode(u, f, p, ps);
    FirstMode(v, f, p, []);
    assert [p] + [] == [p];
    var w := one.(parser := Parser(Normal, ps, 0, "", "?"));
    var t := ChangeMode(u, f, p);
    if f == 'h' && IsAlternate(p) && s.normal.None? {
      EnterClears(u, p);
      ModesIgnoreParser(t, t, f, ps);
    } else {
      ModesIgnoreParser(w, t, f, ps);
    }
  }

  lemma FirstMode(u: State, f: char, p: nat, ps: seq<nat>)
    requires Writing(u) && (f == 'h' || f == 'l')
    ensures ChangeModes(u, f, [p] + ps) == ChangeModes(ChangeMode(u, f, p), f, ps)
  {
    hide Writing, SetMode, ResetMode;
    assert ([p] + ps)[1..] == ps;
  }

  lemma EnterClears(u: State, p: nat)
    requires Writing(u) && u.parser.prefix == "?" && IsAlternate(p) && u.normal.None?
    ensures ChangeMode(u, 'h', p).parser == INITIAL_PARSER
  {
    hide Writing, EnterAlternate;
    EnterIgnoresParser(u, u);
  }

  /**
   Mode 3 set resizes to 132 columns and remembers the width; reset goes back to it, from 132 columns, and forgets it.
   */
  lemma WidthMode(s: State)
    requires Ready(s)
    ensures Valid(s) && Valid(s.(savedCols := Some(s.cols)))
    ensures SameButParser(Resize(s.(savedCols := Some(s.cols)), 132, s.rows), Run(s, SwitchOn(3)))
    ensures var back := if s.cols == 132 && s.savedCols.Some? then Resize(s, s.savedCols.value, s.rows) else s;
            SameButParser(back.(savedCols := None), Run(s, SwitchOff(3)))
  {
    hide Writing, Valid, Run, Sequence, Resize;
    CursorInside(s);
    WideValid(s);
    ChangeAlone(s, 'h', 3);
    ChangeAlone(s, 'l', 3);
    var u := s.(parser := Parser(Normal, [3], 0, "", "?"));
    ExecutingShape(s, "?", [3]);
    WideValid(u);
    ResizeIgnoresParser(s.(savedCols := Some(s.cols)), u.(savedCols := Some(u.cols)), 132, s.rows);
    if s.savedCols.Some? {
      ResizeIgnoresParser(s, u, s.savedCols.value, s.rows);
    }
  }

  // ---------------------------------------------------------------- full reset

  /** An empty screen with the cursor home, the region free and a stop in every eighth column. */
  ghost predicate FreshScreen(b: Buffer, cols: int, rows: int) {
    && b.ybase == b.ydisp == b.x == b.y == b.scrollTop == 0
    && b.scrollBottom == rows - 1 && |b.lines| == rows
    && (forall k | 0 <= k < |b.lines| :: IsBlank(b.lines[k], cols, (257 << 9) | 256))
    && (forall c :: c in b.tabs <==> 0 <= c < cols && c % 8 == 0)
  }

  lemma FreshIsEmpty(cols: nat, rows: nat)
    ensures FreshScreen(FreshBuffer(cols, rows), cols, rows)
  {
    BlankIs(cols, DEF_ATTR);
    hide BlankLine, IsBlank;
  }

  predicate AsciiSets(cs: Charsets) {
    cs.active == map[] && cs.glevel == 0 && cs.tables == [map[], map[], map[], map[]]
  }

  /** RIS: an empty screen of the same size, everything default; only what `reset` forgets survives. */
  lemma FullReset(s: State)
    requires Ready(s)
    ensures var t := Run(s, [27 as char, 'c']);
            && t == s.(buf := t.buf, normal := None, curAttr := (257 << 9) | 256, cursorState := false,
                       cursorHidden := false, convertEol := false, charsets := t.charsets, parser := t.parser,
                       queue := "", paint := t.paint)
            && FreshScreen(t.buf, s.cols, s.rows) && AsciiSets(t.charsets)
            && Renderable(t) && InSync(t)
  {
    hide Writing, Run, FreshBuffer, FreshScreen, InSync, Reset;
    EscapedShape(s);
    var e := InMode(s, Escaped);
    SwitchIsValid(e);
    EscapeOne(s, 'c');
    ResetIs(e);
    FreshIsEmpty(s.cols, s.rows);
  }

  /** A new terminal, opened: an empty screen with the cursor shown, everything default, and a page that is right. */
  lemma NewTerminalIsFresh(env: Env, cols: nat, rows: nat)
    requires EnvOk(env) && 1 <= cols && 1 <= rows
    ensures var t := Sessions.NewTerminal(env, cols, rows);
            && t.env == env && t.cols == cols && t.rows == rows && FreshScreen(t.buf, cols, rows)
            && t.normal == None && t.curAttr == (257 << 9) | 256 && t.savedX == 0 && t.savedY == 0
            && t.cursorState && !t.cursorHidden && !t.convertEol && AsciiSets(t.charsets)
            && t.title == "" && t.queue == "" && t.parser.mode == Normal && t.parser.prefix == ""
            && Renderable(t) && InSync(t)
  {
    hide PaletteOk, AttrOk, RenderRow, FreshBuffer, FreshScreen, InSync;
    Sessions.OpenedIsReady(env, cols, rows);
    FreshIsEmpty(cols, rows);
  }

  /** Entering the alternate screen does the same, keeps the main buffer and shows the cursor. */
  lemma EntersFreshScreen(s: State, p: nat)
    requires Ready(s) && s.normal.None? && (p == 47 || p == 1047 || p == 1049)
    ensures var t := Run(s, SwitchOn(p));
            && t == s.(buf := t.buf, normal := Some(s.buf), curAttr := (257 << 9) | 256, cursorState := true,
                       cursorHidden := false, convertEol := false, charsets := t.charsets, parser := t.parser,
                       queue := "", paint := t.paint)
            && FreshScreen(t.buf, s.cols, s.rows) && AsciiSets(t.charsets)
  {
    hide Writing, Run, Sequence, EnterAlternate, FreshScreen, FreshBuffer;
    EnterRun(s, p, "");
    assert SwitchOn(p) + "" == SwitchOn(p);
    RunEnds(WithoutPrefix(EnterAlternate(s)));
    EnteredIs(s);
    FreshIsEmpty(s.cols, s.rows);
  }

  lemma EnteredIs(s: State)
    requires Writing(s) && s.normal.None?
    ensures 1 <= s.cols && 1 <= s.rows
    ensures EnterAlternate(s)
         == Reconstruct(s).(normal := Some(s.buf), cursorState := true, paint := EnterAlternate(s).paint)
  {
    hide BufferOk, PaletteOk, AttrOk, RenderRow, FreshBuffer;
    CursorInside(s);
    FreshIsOk(s);
  }

  /** Leaving it brings back the main buffer and shows the cursor; nothing else is brought back. */
  lemma LeavesForSavedScreen(s: State, p: nat)
    requires Ready(s) && s.normal.Some? && (p == 47 || p == 1047 || p == 1049)
    ensures var t := Run(s, SwitchOff(p));
            t == s.(buf := s.normal.value, normal := None, cursorState := true, parser := t.parser, paint := t.paint)
  {
    hide Writing, Run, Sequence, LeaveAlternate;
    LeaveRun(s, p, "");
    assert SwitchOff(p) + "" == SwitchOff(p);
    RunEnds(Left(s, p));
    ExecutingShape(s, "?", [p]);
    LeftIs(s.(parser := Parser(Normal, [p], 0, "", "?")));
  }

  lemma LeftIs(s: State)
    requires Writing(s) && s.normal.Some?
    ensures LeaveAlternate(s)
         == s.(buf := s.normal.value, normal := None, cursorState := true, paint := LeaveAlternate(s).paint)
  {
    hide PaletteOk, AttrOk, RenderRow, LineOk;
  }

  lemma ResetIs(e: State)
    requires Writing(e)
    ensures 1 <= e.cols && 1 <= e.rows && Writing(Reset(e)) && Renderable(Reset(e)) && InSync(Reset(e))
    ensures Reset(e) == Reconstruct(e).(paint := Reset(e).paint)
  {
    hide BufferOk, PaletteOk, AttrOk, RenderRow, FreshBuffer;
    CursorInside(e);
    SwitchIsValid(e);
    FreshIsOk(e);
    RefreshAllInSync(Reconstruct(e));
  }

  // ---------------------------------------------------------------- the view and the cursor's visibility

  /** Scrolling by d moves the view d lines down, by -d up, within the scrollback; nothing else but the page changes. */
  lemma ViewMoves(s: State, d: int)
    requires Valid(s)
    ensures var t := ScrollView(s, d);
            && t == s.(buf := t.buf, paint := t.paint)
            && t.buf == s.buf.(ydisp := if s.buf.ydisp + d > s.buf.ybase then s.buf.ybase
                                        else if s.buf.ydisp + d < 0 then 0 else s.buf.ydisp + d)
            && Renderable(t) && InSync(t)
  {
    hide LineOk, PaletteOk, AttrOk, RenderRow;
    RefreshAllInSync(s.(buf := s.buf.(ydisp := Max(0, Min(s.buf.ydisp + d, s.buf.ybase)))));
  }

  /** `write` first brings the view to the bottom, then reads its text, and changes nothing else but the page. */
  lemma WriteReads(s: State, data: string)
    requires Valid(s) && Guarded(Begin(s), data)
    ensures Begin(s) == s.(buf := s.buf.(ydisp := s.buf.ybase), paint := Begin(s).paint)
    ensures Write(s, data) == Run(Begin(s), data).(paint := Write(s, data).paint)
  {
    hide BufferOk, PaletteOk, AttrOk, RenderRow, Run, Guarded;
    RunShape(Begin(s), data);
  }

  /** Focus and blinking set the cursor's state to what they are told, and `showCursor` switches it on. */
  lemma CursorSwitches(s: State, on: bool)
    requires Valid(s)
    ensures var t := SwitchCursor(s, on); t == s.(cursorState := on, paint := t.paint)
    ensures var t := ShowCursor(s); t == s.(cursorState := true, paint := t.paint)
  {
    hide LineOk, PaletteOk, AttrOk, RenderRow;
  }

  // ---------------------------------------------------------------- unknown and swallowed sequences

  /** Control sequences with a final character that means nothing here change nothing. */
  lemma UnknownFinal(s: State, f: char, ps: seq<nat>)
    requires Ready(s) && |ps| > 0 && IsFinal(f) && !IsMove(f) && !IsEdit(f)
    requires f != 'h' && f != 'l' && f != 'm' && f != 'n' && f != 'c' && f != 's' && f != 'r' && f != 'g'
    ensures Run(s, Sequence("", ps, f)) == s.(parser := Parser(Normal, ps, 0, "", ""))
  {
    hide Writing, Run, Sequence, Restyle, Reported, Identified, IsMove, IsEdit, IsFinal;
    SetRun(s, f, "", ps);
  }

  /** The characters $, ", blank and ' in front of a final character change nothing. */
  lemma PostfixIgnored(s: State, prefix: string, n: nat, post: char, f: char)
    requires Ready(s) && PrefixText(prefix) && IsFinal(f)
    requires post == '$' || post == '"' || post == ' ' || post == '\''
    ensures Run(s, [27 as char, '['] + prefix + (Decimal(n) + [post, f])) == Run(s, Sequence(prefix, [n], f))
  {
    hide Writing, Run, Decimal, PrefixText, Parsing;
    Introduce(s, prefix, Decimal(n) + [post, f]);
    ParseDecimal(s, prefix, [], n, [post, f]);
    PostfixStep(s, prefix, n, post, [f]);
    assert [post, f] == [post] + [f];
    Introduce(s, prefix, Decimal(n) + [f]);
    ParseDecimal(s, prefix, [], n, [f]);
    assert Sequence(prefix, [n], f) == [ESC, '['] + prefix + (Decimal(n) + [f]);
  }

  lemma PostfixStep(s: State, prefix: string, n: nat, post: char, rest: string)
    requires Writing(s) && Writing(Parsing(s, prefix, [], n)) && IsPostfix(post)
    ensures Run(Parsing(s, prefix, [], n), [post] + rest) == Run(Parsing(s, prefix, [], n), rest)
  {
    hide Writing, Run, Execute;
    assert Step(Parsing(s, prefix, [], n), post) == Parsing(s, prefix, [], n);
    RunStep(Parsing(s, prefix, [], n), post, rest);
  }

  /** ESC # swallows the character after it and does nothing else. */
  lemma SwallowsAfterHash(s: State, ch: char, rest: string)
    requires Ready(s)
    ensures Run(s, [27 as char, '#', ch] + rest) == Run(s, rest)
  {
    hide Writing, StepNormal, IndexLine, ReverseIndexLine, Reset;
    CharsetsAreFour(s);
    EscapeRead(s, ['#', ch] + rest);
    assert [27 as char, '#', ch] + rest == [ESC] + (['#', ch] + rest);
    assert Drop(['#', ch] + rest, 2) == rest;
    assert Step(InMode(s, Escaped), '#') == s;
  }

  /** ESC % swallows one too, and goes back to an ASCII set 0, in use. */
  lemma SwallowsAfterPercent(s: State, ch: char, rest: string)
    requires Ready(s)
    ensures |s.charsets.tables| == 4
    ensures var sets := s.charsets.(tables := [map[]] + s.charsets.tables[1..], active := map[], glevel := 0);
            var t := s.(charsets := sets);
            Writing(t) && Run(s, [27 as char, '%', ch] + rest) == Run(t, rest)
  {
    hide Writing, StepNormal, IndexLine, ReverseIndexLine, Reset;
    CursorInside(s);
    CharsetsAreFour(s);
    var t := s.(charsets := s.charsets.(tables := [map[]] + s.charsets.tables[1..], active := map[], glevel := 0));
    SmallShape(s, s.queue, s.savedX, s.savedY, t.charsets, s.parser, s.title);
    EscapeRead(s, ['%', ch] + rest);
    assert [27 as char, '%', ch] + rest == [ESC] + (['%', ch] + rest);
    assert Drop(['%', ch] + rest, 2) == rest;
    assert s.charsets.tables[0 := map[]] == [map[]] + s.charsets.tables[1..];
    assert Step(InMode(s, Escaped), '%') == t;
  }

  lemma EscapeRead(s: State, rest: string)
    requires Ready(s)
    ensures Writing(InMode(s, Escaped)) && Run(s, [ESC] + rest) == Run(InMode(s, Escaped), rest)
  {
    hide Writing, Run, IndexLine, Print;
    EscapedShape(s);
    RunStep(s, ESC, rest);
  }

  /** Escape sequences that mean nothing here change nothing. */
  lemma UnknownEscape(s: State, ch: char)
    requires Ready(s) && !IsScreenEscape(ch) && !Designates(ch) && !SelectsLevel(ch)
    requires ch != '[' && ch != ']' && ch != 'P' && ch != '_' && ch != '^' && ch != '%' && ch != '#'
    requires ch != '7' && ch != '8' && ch != 'H'
    ensures Run(s, [27 as char, ch]) == s
  {
    hide Writing, Run, IndexLine, ReverseIndexLine, Reset;
    CharsetsAreFour(s);
    EscapedShape(s);
    var e := InMode(s, Escaped);
    StepEscapedShape(e, ch);
    EscapeOne(s, ch);
  }

  /** So do control characters other than the nine that are read. */
  lemma OtherControls(s: State, ch: char)
    requires Ready(s) && ch < ' ' && ch !in [8 as char, 9 as char, 10 as char, 11 as char, 12 as char, 13 as char,
                                             14 as char, 15 as char, 27 as char]
    ensures Run(s, [ch]) == s
  {
    hide Writing, Run, IndexLine, Print, NextStop, SetGLevel;
    ControlRun(s, ch);
  }

  /** APC and PM are read up to BEL and have no effect. */
  lemma IgnoredTexts(s: State, opener: char, text: string)
    requires Ready(s) && (opener == '_' || opener == '^') && Titles.PlainText(text)
    ensures Run(s, [27 as char, opener] + text + [7 as char]) == s
  {
    hide Writing, Run, StepEscaped;
    InModeShape(s, Ignore);
    assert [27 as char, opener] + text + [7 as char] == [ESC] + ([opener] + (text + [BEL]));
    EscapeRead(s, [opener] + (text + [BEL]));
    OpensIgnored(s, opener);
    RunStep(InMode(s, Escaped), opener, text + [BEL]);
    IgnoresText(s, text);
  }

  lemma OpensIgnored(s: State, opener: char)
    requires Ready(s) && (opener == '_' || opener == '^') && Writing(InMode(s, Escaped))
    ensures StepEscaped(InMode(s, Escaped), opener) == InMode(s, Ignore)
  {
    hide Writing;
    CharsetsAreFour(s);
  }

  lemma {:induction false} IgnoresText(s: State, text: string)
    requires Ready(s) && Writing(InMode(s, Ignore)) && Titles.PlainText(text)
    ensures Run(InMode(s, Ignore), text + [BEL]) == s
    decreases |text|
  {
    hide Writing, Run;
    var i := InMode(s, Ignore);
    if text == "" {
      assert text + [BEL] == [BEL] + "";
      RunStep(i, BEL, "");
      RunEnds(s);
    } else {
      assert text + [BEL] == [text[0]] + (text[1..] + [BEL]);
      RunStep(i, text[0], text[1..] + [BEL]);
      IgnoresText(s, text[1..]);
    }
  }

  /** The locking shifts put sets 1, 2 and 3 to use, and leave the machine inside the escape sequence. */
  lemma LockingShifts(s: State, ch: char)
    requires Ready(s) && (ch == '~' || ch == 'n' || ch == '}' || ch == 'o' || ch == '|')
    ensures |s.charsets.tables| == 4
    ensures var g := if ch == '~' then 1 else if ch == 'n' || ch == '}' then 2 else 3;
            Run(s, [27 as char, ch])
            == s.(charsets := s.charsets.(glevel := g, active := s.charsets.tables[g]),
                  parser := s.parser.(mode := Escaped))
  {
    hide Writing, Run, IndexLine, ReverseIndexLine, Reset;
    CharsetsAreFour(s);
    EscapedShape(s);
    var e := InMode(s, Escaped);
    StepEscapedShape(e, ch);
    EscapeOne(s, ch);
  }

  /** Single shifts change nothing and leave the machine there too. */
  lemma SingleShifts(s: State, ch: char)
    requires Ready(s) && (ch == 'N' || ch == 'O')
    ensures Run(s, [27 as char, ch]) == s.(parser := s.parser.(mode := Escaped))
  {
    hide Writing, Run, IndexLine, ReverseIndexLine, Reset;
    CharsetsAreFour(s);
    EscapedShape(s);
    StepEscapedShape(InMode(s, Escaped), ch);
    EscapeOne(s, ch);
  }

  // ---------------------------------------------------------------- spelling

  /** The number that a text of digits spells. */
  function Value(digits: string): nat
    requires forall i | 0 <= i < |digits| :: '0' <= digits[i] <= '9'
  {
    if digits == "" then 0
    else Value(digits[..|digits| - 1]) * 10 + (digits[|digits| - 1] as int - 48)
  }

  /** A number is printed as the digits that spell it, with no zero in front. */
  lemma {:induction false} DecimalSpells(n: nat)
    ensures var d := Decimal(n);
            && d != "" && (forall i | 0 <= i < |d| :: '0' <= d[i] <= '9') && Value(d) == n
            && (n >= 10 ==> d[0] != '0')
    decreases n
  {
    if n < 10 {
      assert Decimal(n)[..0] == "";
    } else {
      DecimalSpells(n / 10);
      assert Decimal(n)[..|Decimal(n)| - 1] == Decimal(n / 10);
      NonZero(n / 10);
    }
  }

  lemma NonZero(n: nat)
    requires n >= 1
    ensures n < 10 ==> Decimal(n)[0] != '0'
  {
  }

  /** The control characters and sequences that texts are made of, by their codes. */
  lemma Spelling(prefix: string, p: nat, q: nat, f: char)
    ensures ESC == 27 as char && BEL == 7 as char && BS == 8 as char && VT == 11 as char && FF == 12 as char
    ensures SO == 14 as char && SI == 15 as char
    ensures Sequence(prefix, [p], f) == [27 as char] + "[" + prefix + Decimal(p) + [f]
    ensures Sequence(prefix, [p, q], f) == [27 as char] + "[" + prefix + (Decimal(p) + ";" + Decimal(q)) + [f]
  {
    hide Decimal;
    assert [p, q][1..] == [q];
    assert Joined([p, q]) == Decimal(p) + ";" + Decimal(q);
  }
}
