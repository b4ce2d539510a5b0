/** Short texts and the states they lead to: cursor moves, index commands and buffer switches. */
module SmallTexts {
  import opened Options
  import opened Attributes
  import opened Rendering
  import opened Screen
  import opened Emulator
  import opened Shape
  import opened Damage
  import opened ControlSequences

  lemma BegunStill(s: State)
    requires Ready(s) && InSync(s)
    ensures Valid(s) && 0 <= s.buf.ybase && |s.buf.lines| == s.buf.ybase + s.rows
    ensures Ready(Begin(s)) && InSync(Begin(s)) && Begin(s) == s.(paint := Paint(s.buf.y, s.buf.y, s.paint.children))
  {
    hide LineOk, PaletteOk, AttrOk, RenderRow;
    forall k | 0 <= k < s.rows
      ensures RenderRow(Begin(s), k) == RenderRow(s, k)
    {
      PaintIrrelevant(s, Begin(s), k);
    }
  }

  /** A control sequence on its own. */
  lemma OneSequence(s: State, prefix: string, ps: seq<nat>, f: char)
    requires Ready(s) && PrefixText(prefix) && |ps| > 0 && IsFinal(f)
    ensures Run(s, Sequence(prefix, ps, f)) == Executed(s, prefix, ps, f)
    ensures Executed(s, prefix, ps, f).parser.mode == Normal && Executed(s, prefix, ps, f).parser.prefix == ""
  {
    hide Writing, Run, Executed, Sequence, IsFinal, PrefixText;
    SequenceRoundTrip(s, prefix, ps, f, "");
    assert Sequence(prefix, ps, f) + "" == Sequence(prefix, ps, f);
    if Writing(Executed(s, prefix, ps, f)) {
      RunEnds(Executed(s, prefix, ps, f));
    }
  }

  /** CUP to column x and row y, counted from zero. */
  function Goto(x: nat, y: nat): string {
    Sequence("", [y + 1, x + 1], 'H')
  }

  /** The state after that. */
  function Gone(s: State, x: nat, y: nat): State {
    To(s, x, y).(parser := Parser(Normal, [y + 1, x + 1], 0, "", ""))
  }

  lemma GotoRun(s: State, x: nat, y: nat, rest: string)
    requires Ready(s) && x < s.cols && y < s.rows
    ensures Ready(Gone(s, x, y)) && Run(s, Goto(x, y) + rest) == Run(Gone(s, x, y), rest)
  {
    hide Writing, BufferOk, Execute, Executed, Sequence;
    SequenceRoundTrip(s, "", [y + 1, x + 1], 'H', rest);
    GotoExecuted(s, x, y);
  }

  lemma GotoExecuted(s: State, x: nat, y: nat)
    requires Ready(s) && x < s.cols && y < s.rows
    ensures Ready(Gone(s, x, y)) && Executed(s, "", [y + 1, x + 1], 'H') == Gone(s, x, y)
  {
    hide Writing, Executed;
    PositionExecuted(s, x, y);
  }

  /** An escape sequence of one character that works on the screen, from a state between sequences. */
  lemma EscapeRun(s: State, ch: char, rest: string)
    requires Ready(s) && (ch == 'D' || ch == 'M')
    ensures var t := if ch == 'D' then IndexLine(s) else ReverseIndexLine(s);
            Ready(t) && Run(s, [ESC, ch] + rest) == Run(t, rest)
  {
    hide Writing, Run, IndexLine, ReverseIndexLine;
    InModeShape(s, Escaped);
    LineFeedShape(s);
    EscapeIgnoresMode(s);
    assert [ESC, ch] + rest == [ESC] + ([ch] + rest);
    RunStep(s, ESC, [ch] + rest);
    RunStep(InMode(s, Escaped), ch, rest);
  }

  lemma EscapeIgnoresMode(s: State)
    requires Ready(s) && Writing(InMode(s, Escaped))
    ensures InMode(IndexLine(InMode(s, Escaped)), Normal) == IndexLine(s)
    ensures InMode(ReverseIndexLine(InMode(s, Escaped)), Normal) == ReverseIndexLine(s)
    ensures IndexLine(s).parser == s.parser && ReverseIndexLine(s).parser == s.parser
  {
    hide Writing, Index, Screen.ReverseIndex;
    CursorInside(s);
  }

  // ---------------------------------------------------------------- the alternate screen

  /** CSI ? p h and CSI ? p l. */
  function SwitchOn(p: nat): string {
    Sequence("?", [p], 'h')
  }

  function SwitchOff(p: nat): string {
    Sequence("?", [p], 'l')
  }

  function WithoutPrefix(s: State): State {
    s.(parser := s.parser.(prefix := ""))
  }

  /** The state after CSI ? p f, where f is h or l. */
  function Changed(s: State, f: char, p: nat): State
    requires Writing(s)
  {
    ExecutingShape(s, "?", [p]);
    WithoutPrefix(ChangeMode(s.(parser := Parser(Normal, [p], 0, "", "?")), f, p))
  }

  /** A mode change with one parameter, printed and parsed. */
  lemma ChangeRun(s: State, f: char, p: nat, rest: string)
    requires Ready(s) && (f == 'h' || f == 'l')
    ensures Ready(Changed(s, f, p)) && Run(s, Sequence("?", [p], f) + rest) == Run(Changed(s, f, p), rest)
  {
    hide Writing, ChangeMode, Sequence, Executed, Run;
    ExecutingShape(s, "?", [p]);
    SequenceRoundTrip(s, "?", [p], f, rest);
    ChangeExecuted(s, f, p);
    PrefixIrrelevant(ChangeMode(s.(parser := Parser(Normal, [p], 0, "", "?")), f, p), "");
  }

  lemma ChangeExecuted(s: State, f: char, p: nat)
    requires Ready(s) && (f == 'h' || f == 'l')
    ensures Executed(s, "?", [p], f) == Changed(s, f, p)
  {
    hide Writing, SetMode, ResetMode, Edit, Target, Set;
    var u := s.(parser := Parser(Normal, [p], 0, "", "?"));
    ExecutingShape(s, "?", [p]);
    assert [p][1..] == [];
    assert SetModes(u, [p]) == SetMode(u, p) && ResetModes(u, [p]) == ResetMode(u, p);
  }

  /** Entering the alternate screen, by any of its three modes. */
  lemma EnterRun(s: State, p: nat, rest: string)
    requires Ready(s) && s.normal.None? && IsAlternate(p)
    ensures Ready(WithoutPrefix(EnterAlternate(s)))
    ensures Run(s, SwitchOn(p) + rest) == Run(WithoutPrefix(EnterAlternate(s)), rest)
  {
    hide Writing, EnterAlternate, Sequence, Run;
    var u := s.(parser := Parser(Normal, [p], 0, "", "?"));
    ExecutingShape(s, "?", [p]);
    ChangeRun(s, 'h', p, rest);
    EnterIgnoresParser(s, u);
  }

  lemma EnterIgnoresParser(s: State, u: State)
    requires Writing(s) && Writing(u) && u == s.(parser := u.parser) && s.normal.None?
    ensures EnterAlternate(s) == EnterAlternate(u) && EnterAlternate(s).parser == INITIAL_PARSER
  {
    hide BufferOk, PaletteOk, AttrOk, RenderRow, FreshBuffer;
    CursorInside(s);
    FreshIsOk(s);
    FreshIsOk(u);
    assert Reconstruct(s) == Reconstruct(u);
  }

  /** What matters of the alternate screen right after it was entered. */
  lemma Entered(s: State)
    requires Writing(s) && s.normal.None?
    ensures var t := EnterAlternate(s);
            && Writing(t) && InSync(t) && SameRange(s, t)
            && t.buf.x == 0 && t.buf.y == 0 && t.cursorState && !t.cursorHidden && t.cols == s.cols && t.rows == s.rows
            && t.parser == INITIAL_PARSER
  {
    hide BufferOk, PaletteOk, AttrOk, RenderRow, FreshBuffer, InSync;
    CursorInside(s);
    EnterInSync(s);
    FreshIsOk(s);
    FreshCorner(s.cols, s.rows);
  }

  lemma FreshCorner(cols: nat, rows: nat)
    ensures FreshBuffer(cols, rows).x == 0 && FreshBuffer(cols, rows).y == 0
  {
  }

  /** The state after CSI ? p l inside the alternate screen. */
  function Left(s: State, p: nat): State
    requires Writing(s)
  {
    ExecutingShape(s, "?", [p]);
    WithoutPrefix(LeaveAlternate(s.(parser := Parser(Normal, [p], 0, "", "?"))))
  }

  lemma LeaveRun(s: State, p: nat, rest: string)
    requires Ready(s) && s.normal.Some? && IsAlternate(p)
    ensures Ready(Left(s, p)) && Run(s, SwitchOff(p) + rest) == Run(Left(s, p), rest)
  {
    hide Writing, LeaveAlternate, Sequence, Run;
    ExecutingShape(s, "?", [p]);
    ChangeRun(s, 'l', p, rest);
  }

  lemma LeftShows(s: State, p: nat)
    requires Ready(s) && s.normal.Some?
    ensures var t := Left(s, p);
            && Writing(t) && t.buf == s.normal.value && t.normal == None && InSync(t) && SameRange(s, t)
            && t.cursorState && t.cursorHidden == s.cursorHidden && t.cols == s.cols && t.rows == s.rows
  {
    hide PaletteOk, AttrOk, RenderRow, LineOk, InSync;
    var u := s.(parser := Parser(Normal, [p], 0, "", "?"));
    ExecutingShape(s, "?", [p]);
    LeaveInSync(u);
    PrefixInSync(LeaveAlternate(u));
  }

  lemma PrefixInSync(s: State)
    requires Writing(s) && InSync(s)
    ensures Writing(WithoutPrefix(s)) && InSync(WithoutPrefix(s))
  {
    hide BufferOk, PaletteOk, AttrOk, RenderRow;
    forall k | 0 <= k < s.rows
      ensures RenderRow(WithoutPrefix(s), k) == RenderRow(s, k)
    {
      OtherFields(s, WithoutPrefix(s), k);
    }
  }
}
