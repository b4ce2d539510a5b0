/** The saved cursor: restoring it brings back the place at the last save, whatever was done between. */
module SavedCursor {
  import opened Options
  import opened Shifts
  import opened Attributes
  import opened Rendering
  import opened TabStops
  import opened Screen
  import opened Emulator
  import opened Shape
  import opened Damage
  import opened ControlSequences
  import opened Commands
  import opened Settings
  import opened Moving

  /** The two steps that save the cursor. */
  predicate Saves(s: State, ch: char) {
    (s.parser.mode == Escaped && ch == '7') || (s.parser.mode == Csi && ch == 's')
  }

  predicate SameSaved(s: State, t: State) {
    t.savedX == s.savedX && t.savedY == s.savedY
  }

  lemma NormalKeepsSaved(s: State, ch: char)
    requires Writing(s)
    ensures SameSaved(s, StepNormal(s, ch))
  {
    hide Writing, NextStop, SetGLevel, Wrap, Index;
    WrapIsOk(s);
    HomeColumnShape(s);
    CursorInside(s);
  }

  lemma EscapedKeepsSaved(s: State, ch: char)
    requires Writing(s) && ch != '7'
    ensures SameSaved(s, StepEscaped(s, ch))
  {
    hide Writing, SameSaved, IsScreenEscape, ScreenEscape, SettingEscape;
    CharsetsAreFour(s);
    if IsScreenEscape(ch) {
      ScreenKeepsSaved(s, ch);
    } else {
      SettingKeepsSaved(s, ch);
    }
  }

  lemma SettingKeepsSaved(s: State, ch: char)
    requires |s.charsets.tables| == 4 && ch != '7'
    ensures SameSaved(s, SettingEscape(s, ch))
  {
    hide EscapeParser, EscapeCharsets, EscapeBuffer;
  }

  lemma ScreenKeepsSaved(s: State, ch: char)
    requires Writing(s) && IsScreenEscape(ch)
    ensures SameSaved(s, ScreenEscape(s, ch))
  {
    hide Writing, IndexLine, ReverseIndexLine, Reset;
    HomeColumnShape(s);
    IndexKeepsSaved(s);
    IndexKeepsSaved(To(s, 0, s.buf.y));
    ResetKeepsSaved(s);
  }

  lemma IndexKeepsSaved(s: State)
    requires Writing(s)
    ensures SameSaved(s, IndexLine(s)) && SameSaved(s, ReverseIndexLine(s))
  {
    hide Writing, Index, ReverseIndex;
    CursorInside(s);
  }

  lemma ResetKeepsSaved(s: State)
    requires Writing(s)
    ensures SameSaved(s, Reset(s)) && SameSaved(s, EnterAlternate(s)) && SameSaved(s, LeaveAlternate(s))
  {
    hide BufferOk, PaletteOk, AttrOk, RenderRow, FreshBuffer;
    FreshIsOk(s);
  }

  lemma ResizeKeepsSaved(s: State, x: int, y: int)
    requires Valid(s)
    ensures SameSaved(s, Resize(s, x, y))
  {
    hide BufferOk, PaletteOk, AttrOk, RenderRow, ResizeBuffer, Fit;
    ResizedIsOk(s, Max(x, 1), Max(y, 1));
  }

  lemma ModeKeepsSavedCursor(s: State, f: char, p: nat)
    requires Writing(s)
    ensures SameSaved(s, ChangeMode(s, f, p))
  {
    hide Writing, Valid, Resize, EnterAlternate, LeaveAlternate, AllAscii;
    ResetKeepsSaved(s);
    WideValid(s);
    ResizeKeepsSaved(s.(savedCols := Some(s.cols)), 132, s.rows);
    if s.savedCols.Some? {
      ResizeKeepsSaved(s, s.savedCols.value, s.rows);
    }
  }

  lemma {:induction false} ModesKeepSavedCursor(s: State, f: char, ps: seq<nat>)
    requires Writing(s) && (f == 'h' || f == 'l')
    ensures SameSaved(s, if f == 'h' then SetModes(s, ps) else ResetModes(s, ps))
    decreases |ps|
  {
    hide Writing, SetMode, ResetMode;
    if ps != [] {
      ModeKeepsSavedCursor(s, f, ps[0]);
      ModesKeepSavedCursor(ChangeMode(s, f, ps[0]), f, ps[1..]);
    }
  }

  lemma CsiKeepsSaved(s: State, ch: char)
    requires Writing(s) && s.parser.mode == Csi && ch != 's'
    ensures SameSaved(s, StepCsi(s, ch))
  {
    hide Writing, EditedBuffer, EditDamage, Target, SetModes, ResetModes, Restyle, Reported, Identified, SetBuffer;
    CursorInside(s);
    if IsFinal(ch) {
      var ps := s.parser.params + [s.parser.currentParam];
      PrefixedWriting(s, Executing(s, ps));
      if ch == 'h' || ch == 'l' {
        ModesKeepSavedCursor(Executing(s, ps), ch, ps);
      }
    }
  }

  lemma StepKeepsSavedCursor(s: State, ch: char)
    requires Writing(s) && !Saves(s, ch)
    ensures SameSaved(s, Step(s, ch))
  {
    hide Writing, StepNormal, StepEscaped, StepCsi, DcsReply, DcsParser, OscParser;
    CursorInside(s);
    match s.parser.mode {
      case Normal => NormalKeepsSaved(s, ch);
      case Escaped => EscapedKeepsSaved(s, ch);
      case Csi => CsiKeepsSaved(s, ch);
      case _ =>
    }
  }

  /** No step of the run saves the cursor. */
  ghost predicate NeverSaves(s: State, data: string)
    requires Writing(s)
    decreases |data|, EscapedRank(s)
  {
    hide Writing, StepNormal, StepCsi, StepOsc, StepCharset, StepDcs, StepIgnore;
    data != [] ==>
      && !Saves(s, data[0])
      && var s' := Step(s, data[0]);
         StepAdvances(s, data);
         Writing(s') ==> NeverSaves(s', Drop(data, Advance(s.parser.mode, data[0])))
  }

  lemma {:induction false} RunKeepsSavedCursor(s: State, data: string)
    requires Writing(s) && NeverSaves(s, data)
    ensures SameSaved(s, Run(s, data))
    decreases |data|, EscapedRank(s)
  {
    hide Writing, Step, Saves;
    if data != [] {
      StepKeepsSavedCursor(s, data[0]);
      StepAdvances(s, data);
      var s' := Step(s, data[0]);
      if Writing(s') {
        RunKeepsSavedCursor(s', Drop(data, Advance(s.parser.mode, data[0])));
      }
    }
  }

  // ---------------------------------------------------------------- saving and restoring

  /** The two spellings of saving and of restoring: CSI s and ESC 7, CSI u and ESC 8. */
  function Save(escape: bool): string {
    if escape then [27 as char, '7'] else Command(0, 's')
  }

  function Restore(escape: bool): string {
    if escape then [27 as char, '8'] else Command(0, 'u')
  }

  /** Saving remembers the cursor's place and changes nothing else. */
  lemma SaveRun(s: State, escape: bool)
    requires Ready(s)
    ensures var t := Run(s, Save(escape));
            && Ready(t)
            && t == s.(savedX := s.buf.x, savedY := s.buf.y, parser := t.parser)
  {
    hide Writing, Run, Sequence, Restyle, Reported, Identified, EscapeCharsets, SetBuffer;
    CursorInside(s);
    if escape {
      EscapedShape(s);
      var e := InMode(s, Escaped);
      CharsetsAreFour(e);
      SaveIs(e);
      StepEscapedShape(e, '7');
      EscapeOne(s, '7');
    } else {
      SetRun(s, 's', "", [0]);
      SmallShape(s, s.queue, s.buf.x, s.buf.y, s.charsets, Parser(Normal, [0], 0, "", ""), s.title);
      SaveSets(s);
    }
  }

  lemma SaveIs(e: State)
    requires Writing(e) && e.parser.mode == Escaped
    ensures StepEscaped(e, '7') == e.(savedX := e.buf.x, savedY := e.buf.y, parser := e.parser.(mode := Normal))
  {
    hide Writing;
    CharsetsAreFour(e);
  }

  lemma SaveSets(s: State)
    requires 0 <= s.buf.x && 0 <= s.buf.y && s.parser.prefix == ""
    ensures var u := s.(parser := Parser(Normal, [0], 0, "", ""));
            Set(u, 's', [0]) == u.(savedX := s.buf.x, savedY := s.buf.y)
  {
    hide Restyle;
  }

  /** Restoring puts the cursor in the saved place, if that is on the screen, and changes nothing else. */
  lemma RestoreRun(s: State, escape: bool)
    requires Ready(s) && s.savedX <= s.cols && s.savedY < s.rows
    ensures MovesTo(s, Restore(escape), s.savedX, s.savedY)
  {
    hide Writing, Run, Sequence, EscapeCharsets;
    if escape {
      EscapedShape(s);
      var e := InMode(s, Escaped);
      CharsetsAreFour(e);
      RestoreIs(e);
      StepEscapedShape(e, '8');
      EscapeOne(s, '8');
    } else {
      MoveRun(s, 'u', [0]);
    }
  }

  lemma RestoreIs(e: State)
    requires Writing(e) && e.parser.mode == Escaped
    ensures StepEscaped(e, '8') == e.(buf := e.buf.(x := e.savedX, y := e.savedY), parser := e.parser.(mode := Normal))
  {
    hide Writing;
    CharsetsAreFour(e);
  }

  /**
   Save the cursor by either spelling, go on with any guarded text that does not save it again, and restore it by either
   spelling: if the place is still on the screen the cursor is back in it, and nothing else is undone.
   */
  lemma SaveThenRestore(s: State, save: bool, data: string, restore: bool)
    requires Ready(s) && Ready(Run(s, Save(save)))
    requires var a := Run(s, Save(save));
             && Guarded(a, data) && NeverSaves(a, data) && Ready(Run(a, data))
             && s.buf.x <= Run(a, data).cols && s.buf.y < Run(a, data).rows
    ensures var b := Run(Run(s, Save(save)), data); MovesTo(b, Restore(restore), s.buf.x, s.buf.y)
  {
    hide Writing, Run, Guarded, NeverSaves, MovesTo;
    SaveRun(s, save);
    RunKeepsSavedCursor(Run(s, Save(save)), data);
    RestoreRun(Run(Run(s, Save(save)), data), restore);
  }
}
