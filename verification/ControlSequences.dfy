/** Printing a control sequence and parsing it again, and the reports that can be fed back. */
module ControlSequences {
  import opened Options
  import opened Shifts
  import opened Attributes
  import opened Rendering
  import opened Screen
  import opened Emulator
  import opened Shape

  /** The parameters in decimal, separated by semicolons. */
  function Joined(ps: seq<nat>): string
    requires |ps| > 0
  {
    if |ps| == 1 then Decimal(ps[0]) else Decimal(ps[0]) + ";" + Joined(ps[1..])
  }

  /** ESC [ prefix p1 ; ... ; pn final. */
  function Sequence(prefix: string, ps: seq<nat>, f: char): string
    requires |ps| > 0
  {
    [ESC, '['] + prefix + Joined(ps) + [f]
  }

  predicate PrefixText(prefix: string) {
    prefix == "" || (|prefix| == 1 && IsPrefix(prefix[0]))
  }

  predicate IsFinal(f: char) {
    !IsPrefix(f) && !IsDigit(f) && !IsPostfix(f) && f != ';'
  }

  /** Between control sequences. */
  ghost predicate Ready(s: State) {
    Writing(s) && s.parser.mode == Normal && s.parser.prefix == ""
  }

  function Parsing(s: State, prefix: string, done: seq<nat>, current: nat): State {
    s.(parser := Parser(Csi, done, current, "", prefix))
  }

  lemma ParsingShape(s: State, prefix: string, done: seq<nat>, current: nat)
    requires Writing(s)
    ensures Writing(Parsing(s, prefix, done, current))
  {
    CursorInside(s);
    hide Writing;
    SmallShape(s, s.queue, s.savedX, s.savedY, s.charsets, Parsing(s, prefix, done, current).parser, s.title);
  }

  /** One character of a control sequence before its end. */
  lemma StepParsing(s: State, prefix: string, done: seq<nat>, current: nat, ch: char, rest: string)
    requires Writing(s) && (IsDigit(ch) || ch == ';')
    ensures Writing(Parsing(s, prefix, done, current))
    ensures var next := if ch == ';' then Parsing(s, prefix, done + [current], 0)
                        else Parsing(s, prefix, done, WithDigit(current, ch));
            && Writing(next)
            && Run(Parsing(s, prefix, done, current), [ch] + rest) == Run(next, rest)
  {
    hide Writing, Execute, Run;
    ParsingShape(s, prefix, done, current);
    var next := if ch == ';' then Parsing(s, prefix, done + [current], 0)
                else Parsing(s, prefix, done, WithDigit(current, ch));
    ParsingShape(s, prefix, next.parser.params, next.parser.currentParam);
    RunStep(Parsing(s, prefix, done, current), ch, rest);
  }

  lemma {:induction false} ParseDecimal(s: State, prefix: string, done: seq<nat>, n: nat, rest: string)
    requires Writing(s)
    ensures Writing(Parsing(s, prefix, done, 0)) && Writing(Parsing(s, prefix, done, n))
    ensures Run(Parsing(s, prefix, done, 0), Decimal(n) + rest) == Run(Parsing(s, prefix, done, n), rest)
    decreases n
  {
    hide Writing, Run, Parsing;
    if n < 10 {
      StepParsing(s, prefix, done, 0, Digit(n), rest);
    } else {
      ParseDecimal(s, prefix, done, n / 10, [Digit(n % 10)] + rest);
      assert Decimal(n) + rest == Decimal(n / 10) + ([Digit(n % 10)] + rest);
      StepParsing(s, prefix, done, n / 10, Digit(n % 10), rest);
    }
  }

  /** What a complete control sequence does to a state between sequences. */
  function Executed(s: State, prefix: string, ps: seq<nat>, f: char): State
    requires Writing(s) && |ps| > 0 && s.parser.mode == Normal
  {
    ExecutingShape(s, prefix, ps);
    var t := Execute(s.(parser := Parser(Normal, ps, 0, "", prefix)), f, ps);
    t.(parser := t.parser.(prefix := ""))
  }

  lemma ExecutingShape(s: State, prefix: string, ps: seq<nat>)
    requires Writing(s)
    ensures Writing(s.(parser := Parser(Normal, ps, 0, "", prefix)))
  {
    CursorInside(s);
    hide Writing;
    SmallShape(s, s.queue, s.savedX, s.savedY, s.charsets, Parser(Normal, ps, 0, "", prefix), s.title);
  }

  /** A run continued while the state keeps its shape. */
  ghost function Continue(s: State, rest: string): State {
    if Writing(s) then Run(s, rest) else s
  }

  lemma StepFinal(s: State, prefix: string, done: seq<nat>, n: nat, f: char, rest: string)
    requires Writing(s) && s.parser.mode == Normal && IsFinal(f)
    ensures Writing(Parsing(s, prefix, done, n))
    ensures Run(Parsing(s, prefix, done, n), [f] + rest) == Continue(Executed(s, prefix, done + [n], f), rest)
  {
    ParsingShape(s, prefix, done, n);
    var t := Parsing(s, prefix, done, n);
    ExecutingShape(s, prefix, done + [n]);
    assert Step(t, f) == Executed(s, prefix, done + [n], f) by {
      hide Writing, Execute;
    }
    assert Drop([f] + rest, 1) == rest;
    hide Writing, Step, Executed;
  }

  lemma {:induction false} ParseParameters(
    s: State, prefix: string, done: seq<nat>, ps: seq<nat>, f: char, rest: string)
    requires Writing(s) && s.parser.mode == Normal && |ps| > 0 && IsFinal(f)
    ensures Writing(Parsing(s, prefix, done, 0))
    ensures Run(Parsing(s, prefix, done, 0), Joined(ps) + [f] + rest)
         == Continue(Executed(s, prefix, done + ps, f), rest)
    decreases |ps|
  {
    hide Writing, Run, Parsing, Executed, IsFinal;
    var n := ps[0];
    if |ps| == 1 {
      assert Joined(ps) + [f] + rest == Decimal(n) + ([f] + rest);
      ParseDecimal(s, prefix, done, n, [f] + rest);
      StepFinal(s, prefix, done, n, f, rest);
      assert done + ps == done + [n];
    } else {
      var tail := Joined(ps[1..]) + [f] + rest;
      assert Joined(ps) + [f] + rest == Decimal(n) + ([';'] + tail);
      ParseDecimal(s, prefix, done, n, [';'] + tail);
      StepParsing(s, prefix, done, n, ';', tail);
      ParseParameters(s, prefix, done + [n], ps[1..], f, rest);
      assert done + ps == done + [n] + ps[1..];
    }
  }

  lemma Introduce(s: State, prefix: string, rest: string)
    requires Ready(s) && PrefixText(prefix)
    ensures Writing(Parsing(s, prefix, [], 0))
    ensures Run(s, [ESC, '['] + prefix + rest) == Run(Parsing(s, prefix, [], 0), rest)
  {
    hide Writing, Execute, Run;
    ParsingShape(s, prefix, [], 0);
    Opening(s, prefix + rest);
    assert [ESC, '['] + prefix + rest == [ESC, '['] + (prefix + rest);
    if prefix != "" {
      assert prefix == [prefix[0]] && prefix + rest == [prefix[0]] + rest;
      assert Step(Parsing(s, "", [], 0), prefix[0]) == Parsing(s, prefix, [], 0);
      RunStep(Parsing(s, "", [], 0), prefix[0], rest);
    } else {
      assert prefix + rest == rest;
    }
  }

  lemma Opening(s: State, rest: string)
    requires Ready(s)
    ensures Writing(Parsing(s, "", [], 0)) && Run(s, [ESC, '['] + rest) == Run(Parsing(s, "", [], 0), rest)
  {
    hide Writing, Run, ScreenEscape, IndexLine, Print;
    InModeShape(s, Escaped);
    ParsingShape(s, "", [], 0);
    RunStep(s, ESC, ['['] + rest);
    RunStep(InMode(s, Escaped), '[', rest);
    assert [ESC, '['] + rest == [ESC] + (['['] + rest);
    assert Step(InMode(s, Escaped), '[') == Parsing(s, "", [], 0);
  }

  /**
   Every control sequence, with any prefix and any parameters, is dispatched with exactly that prefix and those
   parameters, and the rest of the stream is read from the state it leaves.
   */
  lemma SequenceRoundTrip(s: State, prefix: string, ps: seq<nat>, f: char, rest: string)
    requires Ready(s) && PrefixText(prefix) && |ps| > 0 && IsFinal(f)
    ensures Run(s, Sequence(prefix, ps, f) + rest) == Continue(Executed(s, prefix, ps, f), rest)
    ensures Executed(s, prefix, ps, f).parser.mode == Normal && Executed(s, prefix, ps, f).parser.prefix == ""
  {
    assert Sequence(prefix, ps, f) + rest == [ESC, '['] + prefix + (Joined(ps) + [f] + rest);
    Introduce(s, prefix, Joined(ps) + [f] + rest);
    ParseParameters(s, prefix, [], ps, f, rest);
    assert [] + ps == ps;
    ExecutingShape(s, prefix, ps);
    ExecuteKeepsNormal(s.(parser := Parser(Normal, ps, 0, "", prefix)), f, ps);
    hide Writing, Run, Parsing, Execute, IsFinal, PrefixText;
  }

  lemma ExecuteKeepsNormal(s: State, f: char, ps: seq<nat>)
    requires Writing(s) && |ps| > 0 && s.parser.mode == Normal
    ensures Execute(s, f, ps).parser.mode == Normal
  {
    hide Writing, Edit, SetModes, ResetModes, Target, Restyle, Reported, Identified, SetBuffer;
    if f == 'h' {
      SetModesKeepNormal(s, ps);
    } else if f == 'l' {
      ResetModesKeepNormal(s, ps);
    } else if IsEdit(f) {
      hide EditedBuffer, EditDamage;
      assert Edit(s, f, ps).parser == s.parser by { EditKeepsParser(s, f, ps); }
    }
  }

  lemma EditKeepsParser(s: State, f: char, ps: seq<nat>)
    requires Writing(s) && |ps| > 0
    ensures Edit(s, f, ps).parser == s.parser
  {
    hide Writing, EditedBuffer, EditDamage;
  }

  lemma ModeKeepsNormal(s: State, p: nat)
    requires Writing(s) && s.parser.mode == Normal
    ensures SetMode(s, p).parser.mode == Normal && ResetMode(s, p).parser.mode == Normal
  {
    hide BufferOk, PaletteOk, AttrOk, RenderRow, Resize, EnterAlternate;
    CursorInside(s);
    ResizeKeepsMode(s, s.rows);
    EnterKeepsNormal(s);
  }

  lemma ResizeKeepsMode(s: State, rows: int)
    requires Writing(s)
    ensures Valid(s.(savedCols := Some(s.cols)))
    ensures forall t: State, cols: int | Valid(t) :: Resize(t, cols, rows).parser == t.parser
  {
    hide BufferOk, PaletteOk, AttrOk, RenderRow, ResizeBuffer, Fit;
    CursorInside(s);
  }

  lemma EnterKeepsNormal(s: State)
    requires Writing(s) && s.parser.mode == Normal
    ensures EnterAlternate(s).parser.mode == Normal
  {
    hide BufferOk, PaletteOk, AttrOk, RenderRow, FreshBuffer;
    FreshIsOk(s);
  }

  lemma {:induction false} SetModesKeepNormal(s: State, ps: seq<nat>)
    requires Writing(s) && s.parser.mode == Normal
    ensures SetModes(s, ps).parser.mode == Normal
    decreases |ps|
  {
    hide Writing, SetMode;
    if ps != [] {
      SetModeIsValid(s, ps[0]);
      ModeKeepsNormal(s, ps[0]);
      SetModesKeepNormal(SetMode(s, ps[0]), ps[1..]);
    }
  }

  lemma {:induction false} ResetModesKeepNormal(s: State, ps: seq<nat>)
    requires Writing(s) && s.parser.mode == Normal
    ensures ResetModes(s, ps).parser.mode == Normal
    decreases |ps|
  {
    hide Writing, ResetMode;
    if ps != [] {
      ResetModeIsValid(s, ps[0]);
      ModeKeepsNormal(s, ps[0]);
      ResetModesKeepNormal(ResetMode(s, ps[0]), ps[1..]);
    }
  }

  // ---------------------------------------------------------------- editing commands

  /** The state after CSI n f for an editing command f. */
  function Edited(s: State, f: char, n: nat): State
    requires Writing(s)
  {
    ExecutingShape(s, "", [n]);
    Edit(s.(parser := Parser(Normal, [n], 0, "", "")), f, [n])
  }

  /** REP needs room in its row; the others need nothing. */
  predicate HasRoom(s: State, f: char, n: nat) {
    f == 'b' ==> s.buf.x + Max(1, n) <= s.cols
  }

  /** An editing command printed and parsed. */
  lemma EditRun(s: State, f: char, n: nat, rest: string)
    requires Ready(s) && IsEdit(f) && HasRoom(s, f, n)
    ensures Ready(Edited(s, f, n)) && Run(s, Sequence("", [n], f) + rest) == Run(Edited(s, f, n), rest)
  {
    hide Writing, Edit, Execute, Executed, Sequence;
    SequenceRoundTrip(s, "", [n], f, rest);
    ExecutingShape(s, "", [n]);
    EditShape(s.(parser := Parser(Normal, [n], 0, "", "")), f, [n]);
    ExecutedEdit(s, f, n);
  }

  lemma ExecutedEdit(s: State, f: char, n: nat)
    requires Ready(s) && IsEdit(f) && HasRoom(s, f, n)
    ensures Executed(s, "", [n], f) == Edited(s, f, n)
    ensures Edited(s, f, n).parser == Parser(Normal, [n], 0, "", "")
    ensures GuardCsi(s.(parser := Parser(Normal, [n], 0, "", "")), f, [n])
  {
    hide Writing, EditedBuffer, EditDamage, SetModes, ResetModes, Set, Target;
    ExecutingShape(s, "", [n]);
  }

  // ---------------------------------------------------------------- reports

  /** The cursor report is itself a control sequence: ESC [ row ; column R. */
  lemma CursorReportIsSequence(x: nat, y: nat)
    ensures [ESC] + "[" + CursorReport(x, y) == Sequence("", [y + 1, x + 1], 'R')
  {
    assert [y + 1, x + 1][1..] == [x + 1];
    assert Joined([y + 1, x + 1]) == Decimal(y + 1) + ";" + Decimal(x + 1);
  }

  lemma ReportExecuted(s: State)
    requires Writing(s) && s.parser.mode == Normal
    ensures 0 <= s.buf.y && 0 <= s.buf.x
    ensures Executed(s, "", [6], 'n')
         == s.(parser := Parser(Normal, [6], 0, "", ""),
               queue := s.queue + Sequence("", [s.buf.y + 1, s.buf.x + 1], 'R'))
  {
    CursorInside(s);
    CursorReportIsSequence(s.buf.x, s.buf.y);
    ExecutingShape(s, "", [6]);
    assert !IsMove('n') && !IsEdit('n');
    hide Writing, IsMove, IsEdit, Edit, Target, SetModes, ResetModes, Restyle, CursorReport, Sequence, Identified;
  }

  /** Asking for the cursor position sends that report and changes nothing else. */
  lemma CursorRequest(s: State)
    requires Ready(s)
    ensures 0 <= s.buf.y && 0 <= s.buf.x
    ensures var r := Run(s, Sequence("", [6], 'n'));
            && Ready(r)
            && r == s.(parser := r.parser, queue := s.queue + Sequence("", [s.buf.y + 1, s.buf.x + 1], 'R'))
  {
    CursorInside(s);
    assert Sequence("", [6], 'n') + "" == Sequence("", [6], 'n');
    SequenceRoundTrip(s, "", [6], 'n', "");
    var report := Sequence("", [s.buf.y + 1, s.buf.x + 1], 'R');
    ReportExecuted(s);
    hide Writing, Executed, Sequence;
    SmallShape(s, s.queue + report, s.savedX, s.savedY, s.charsets, Parser(Normal, [6], 0, "", ""), s.title);
  }

  /** The state after CUP to column x and row y, counted from zero. */
  function Positioned(s: State, x: nat, y: nat): State {
    To(s, Min(x, s.cols - 1), y).(parser := Parser(Normal, [y + 1, x + 1], 0, "", ""))
  }

  lemma PositionExecuted(s: State, x: nat, y: nat)
    requires Ready(s) && y < s.rows
    ensures Ready(Positioned(s, x, y)) && Executed(s, "", [y + 1, x + 1], 'H') == Positioned(s, x, y)
  {
    hide Writing, BufferOk, Edit, SetModes, ResetModes, Set;
    var ps: seq<nat> := [y + 1, x + 1];
    CursorInside(s);
    ExecutingShape(s, "", ps);
    ExecuteShape(s.(parser := Parser(Normal, ps, 0, "", "")), 'H', ps);
  }

  /** Feeding the reported position back as CUP puts the cursor where it was, except that a pending wrap is lost. */
  lemma ReportReturns(s: State, t: State)
    requires Ready(s) && Ready(t) && s.cols == t.cols && s.rows == t.rows
    ensures 0 <= s.buf.y && 0 <= s.buf.x
    ensures var r := Run(t, Sequence("", [s.buf.y + 1, s.buf.x + 1], 'H'));
            && Ready(r)
            && r == t.(parser := r.parser, buf := t.buf.(x := Min(s.buf.x, s.cols - 1), y := s.buf.y))
  {
    hide Writing, BufferOk, Run, Execute, Executed, Sequence;
    CursorInside(s);
    var ps: seq<nat> := [s.buf.y + 1, s.buf.x + 1];
    SequenceRoundTrip(t, "", ps, 'H', "");
    PositionExecuted(t, s.buf.x, s.buf.y);
    RunEnds(Positioned(t, s.buf.x, s.buf.y));
    assert Sequence("", ps, 'H') + "" == Sequence("", ps, 'H');
  }

  /** ESC P $ q r ESC \ */
  const REGION_REQUEST := [ESC] + "P$qr" + [ESC] + "\\"

  /** A state inside the region request. */
  function Requesting(s: State, prefix: string, text: string): State {
    s.(parser := Parser(Dcs, [], 0, text, prefix))
  }

  lemma RequestStep(s: State, prefix: string, text: string, prefix': string, text': string, ch: char, rest: string)
    requires Writing(s) && ch != ESC
    requires StepDcsOn(s, prefix, text, ch) == Requesting(s, prefix', text')
    ensures Writing(Requesting(s, prefix, text)) && Writing(Requesting(s, prefix', text'))
    ensures Run(Requesting(s, prefix, text), [ch] + rest) == Run(Requesting(s, prefix', text'), rest)
  {
    RequestingShape(s, prefix, text);
    RequestingShape(s, prefix', text');
    hide Writing, StepDcs;
    assert Drop([ch] + rest, 1) == rest;
  }

  function StepDcsOn(s: State, prefix: string, text: string, ch: char): State
    requires Writing(s)
  {
    RequestingShape(s, prefix, text);
    StepDcs(Requesting(s, prefix, text), ch)
  }

  lemma RequestingShape(s: State, prefix: string, text: string)
    requires Writing(s)
    ensures Writing(Requesting(s, prefix, text))
  {
    CursorInside(s);
    hide Writing;
    SmallShape(s, s.queue, s.savedX, s.savedY, s.charsets, Requesting(s, prefix, text).parser, s.title);
  }

  /** The reply to the region request. */
  function RegionReport(s: State): string
    requires 0 <= s.buf.scrollTop && 0 <= s.buf.scrollBottom
  {
    [ESC] + "P0$r" + Joined([s.buf.scrollTop + 1, s.buf.scrollBottom + 1]) + "r" + [ESC] + "\\"
  }

  lemma RequestOpens(s: State, rest: string)
    requires Ready(s)
    ensures Writing(Requesting(s, "", ""))
    ensures Run(s, [ESC, 'P'] + rest) == Run(Requesting(s, "", ""), rest)
  {
    hide Writing, Run, ScreenEscape, IndexLine, Print;
    InModeShape(s, Escaped);
    RequestingShape(s, "", "");
    RunStep(s, ESC, ['P'] + rest);
    RunStep(InMode(s, Escaped), 'P', rest);
    assert [ESC, 'P'] + rest == [ESC] + (['P'] + rest);
    assert Step(InMode(s, Escaped), 'P') == Requesting(s, "", "");
  }

  lemma RegionReply(s: State)
    requires 0 <= s.buf.scrollTop && 0 <= s.buf.scrollBottom
    ensures RegionReport(s) == [ESC] + "P0$r" + StatusReply("r", s.buf.scrollTop, s.buf.scrollBottom) + [ESC] + "\\"
  {
    hide Decimal;
    var ps: seq<nat> := [s.buf.scrollTop + 1, s.buf.scrollBottom + 1];
    assert ps[1..] == [s.buf.scrollBottom + 1];
    assert Joined(ps) + "r" == Decimal(s.buf.scrollTop + 1) + ";" + Decimal(s.buf.scrollBottom + 1) + "r";
  }

  lemma RequestCloses(s: State)
    requires Ready(s)
    ensures 0 <= s.buf.scrollTop && 0 <= s.buf.scrollBottom && Writing(Requesting(s, "$q", "r"))
    ensures var r := Run(Requesting(s, "$q", "r"), [ESC, '\\']);
            Ready(r) && r == s.(parser := r.parser, queue := s.queue + RegionReport(s))
  {
    hide Writing, BufferOk, RegionReport, StatusReply;
    CursorInside(s);
    RequestingShape(s, "$q", "r");
    var end := s.(parser := INITIAL_PARSER, queue := s.queue + RegionReport(s));
    SmallShape(s, end.queue, s.savedX, s.savedY, s.charsets, end.parser, s.title);
    RegionReply(s);
    assert Step(Requesting(s, "$q", "r"), ESC) == end;
    assert Drop([ESC, '\\'], 2) == [];
    assert Run(Requesting(s, "$q", "r"), [ESC, '\\']) == Run(end, []);
  }

  /** The region request is answered with the margins, and changes nothing else. */
  lemma RegionRequest(s: State)
    requires Ready(s)
    ensures 0 <= s.buf.scrollTop && 0 <= s.buf.scrollBottom
    ensures var r := Run(s, REGION_REQUEST);
            Ready(r) && r == s.(parser := r.parser, queue := s.queue + RegionReport(s))
  {
    var end := [ESC, '\\'];
    var tail := ['$'] + (['q'] + (['r'] + end));
    assert REGION_REQUEST == [ESC, 'P'] + tail;
    RequestReads(s);
    hide Writing, Run, StepDcsOn, Requesting, RegionReport;
    RequestOpens(s, tail);
    RequestStep(s, "", "", "$", "", '$', ['q'] + (['r'] + end));
    RequestStep(s, "$", "", "$q", "", 'q', ['r'] + end);
    RequestStep(s, "$q", "", "$q", "r", 'r', end);
    RequestCloses(s);
  }

  lemma RequestReads(s: State)
    requires Writing(s)
    ensures StepDcsOn(s, "", "", '$') == Requesting(s, "$", "")
    ensures StepDcsOn(s, "$", "", 'q') == Requesting(s, "$q", "")
    ensures StepDcsOn(s, "$q", "", 'r') == Requesting(s, "$q", "r")
  {
    hide Writing;
  }

  /** Feeding the reported margins back as DECSTBM restores the region and homes the cursor. */
  lemma RegionReturns(s: State, t: State)
    requires Ready(s) && Ready(t) && s.cols == t.cols && s.rows == t.rows
    ensures 0 <= s.buf.scrollTop && 0 <= s.buf.scrollBottom
    ensures var r := Run(t, Sequence("", [s.buf.scrollTop + 1, s.buf.scrollBottom + 1], 'r'));
            && Ready(r)
            && r == t.(parser := r.parser,
                       buf := t.buf.(scrollTop := s.buf.scrollTop, scrollBottom := s.buf.scrollBottom, x := 0, y := 0))
  {
    hide Writing, BufferOk, Edit, SetModes, ResetModes, Restyle, CursorReport, Sequence, Target;
    CursorInside(s);
    var ps: seq<nat> := [s.buf.scrollTop + 1, s.buf.scrollBottom + 1];
    SequenceRoundTrip(t, "", ps, 'r', "");
    var u := t.(parser := Parser(Normal, ps, 0, "", ""));
    ExecutingShape(t, "", ps);
    ExecuteShape(u, 'r', ps);
    assert Sequence("", ps, 'r') + "" == Sequence("", ps, 'r');
    CursorInside(u);
    assert !IsMove('r') && !IsEdit('r');
    assert Executed(t, "", ps, 'r') == Set(u, 'r', ps);
  }
}
