/**
 The alternate screen: whatever is done while it is shown, the main buffer comes back exactly as it was
 saved, unless the terminal is reset or resized meanwhile.
 */
module Isolation {
  import opened Options
  import opened Attributes
  import opened Rendering
  import opened TabStops
  import opened Screen
  import opened Emulator
  import opened Shape
  import opened Damage
  import opened ControlSequences
  import opened Chunks
  import opened SmallTexts

  /** No parameter of a mode change leaves the alternate screen or changes the width. */
  predicate KeepsModes(s: State, f: char, ps: seq<nat>) {
    forall p | p in ps :: RepaintedRow(s, f, p).None?
  }

  /** A step that neither leaves the alternate screen nor resets or resizes the terminal. */
  predicate KeepsSaved(s: State, ch: char) {
    && !(s.parser.mode == Escaped && ch == 'c')
    && (s.parser.mode == Csi && (ch == 'h' || ch == 'l') ==>
          KeepsModes(s, ch, s.parser.params + [s.parser.currentParam]))
  }

  lemma ModeKeepsSaved(s: State, f: char, p: nat)
    requires Writing(s) && (f == 'h' || f == 'l') && RepaintedRow(s, f, p).None?
    ensures var t := ChangeMode(s, f, p);
            && t.normal == s.normal
            && forall q | RepaintedRow(s, f, q).None? :: RepaintedRow(t, f, q).None?
  {
    hide Writing, Resize, AllAscii;
  }

  lemma {:induction false} ModesKeepSaved(s: State, f: char, ps: seq<nat>)
    requires Writing(s) && (f == 'h' || f == 'l') && KeepsModes(s, f, ps)
    ensures (if f == 'h' then SetModes(s, ps) else ResetModes(s, ps)).normal == s.normal
    decreases |ps|
  {
    hide Writing, SetMode, ResetMode, RepaintedRow;
    if ps != [] {
      assert ps[0] in ps;
      ModeKeepsSaved(s, f, ps[0]);
      assert forall p | p in ps[1..] :: p in ps;
      ModesKeepSaved(ChangeMode(s, f, ps[0]), f, ps[1..]);
    }
  }

  lemma ExecuteKeepsSaved(s: State, f: char, ps: seq<nat>)
    requires Writing(s) && |ps| > 0 && (f == 'h' || f == 'l' ==> KeepsModes(s, f, ps))
    ensures Execute(s, f, ps).normal == s.normal
  {
    hide Writing, EditedBuffer, EditDamage, Target, SetModes, ResetModes, Restyle, Reported, Identified, SetBuffer,
      RepaintedRow;
    CursorInside(s);
    if f == 'h' || f == 'l' {
      ModesKeepSaved(s, f, ps);
    }
  }

  lemma StepKeepsSaved(s: State, ch: char)
    requires Writing(s) && KeepsSaved(s, ch)
    ensures Step(s, ch).normal == s.normal
  {
    hide Writing, StepNormal, StepEscaped, StepCsi, DcsReply, DcsParser, OscParser;
    CursorInside(s);
    match s.parser.mode {
      case Normal => NormalKeepsSaved(s, ch);
      case Escaped => EscapedKeepsSaved(s, ch);
      case Csi => CsiKeepsSaved(s, ch);
      case _ =>
    }
  }

  lemma NormalKeepsSaved(s: State, ch: char)
    requires Writing(s)
    ensures StepNormal(s, ch).normal == s.normal
  {
    hide Writing, NextStop, SetGLevel, Wrap, Index;
    WrapIsOk(s);
    HomeColumnShape(s);
    CursorInside(s);
  }

  lemma EscapedKeepsSaved(s: State, ch: char)
    requires Writing(s) && ch != 'c'
    ensures StepEscaped(s, ch).normal == s.normal
  {
    hide Writing, EscapeParser, EscapeCharsets, Index, ReverseIndex;
    CursorInside(s);
    HomeColumnShape(s);
  }

  lemma CsiKeepsSaved(s: State, ch: char)
    requires Writing(s) && s.parser.mode == Csi && KeepsSaved(s, ch)
    ensures StepCsi(s, ch).normal == s.normal
  {
    hide Writing, Execute;
    if !(IsPrefix(ch) || IsDigit(ch) || IsPostfix(ch) || ch == ';') {
      var ps := s.parser.params + [s.parser.currentParam];
      PrefixedWriting(s, Executing(s, ps));
      ExecuteKeepsSaved(Executing(s, ps), ch, ps);
    }
  }

  /** Every step of the run keeps the saved buffer. */
  ghost predicate StaysInside(s: State, data: string)
    requires Writing(s)
    decreases |data|, EscapedRank(s)
  {
    hide Writing, StepNormal, StepCsi, StepOsc, StepCharset, StepDcs, StepIgnore;
    data != [] ==>
      && KeepsSaved(s, data[0])
      && var s' := Step(s, data[0]);
         StepAdvances(s, data);
         Writing(s') ==> StaysInside(s', Drop(data, Advance(s.parser.mode, data[0])))
  }

  lemma {:induction false} RunKeepsSaved(s: State, data: string)
    requires Writing(s) && StaysInside(s, data)
    ensures Run(s, data).normal == s.normal
    decreases |data|, EscapedRank(s)
  {
    hide Writing, Step, KeepsSaved;
    if data != [] {
      StepKeepsSaved(s, data[0]);
      StepAdvances(s, data);
      var s' := Step(s, data[0]);
      if Writing(s') {
        RunKeepsSaved(s', Drop(data, Advance(s.parser.mode, data[0])));
      }
    }
  }

  // ---------------------------------------------------------------- entering and leaving

  lemma EnterSaves(s: State)
    requires Writing(s) && s.normal.None?
    ensures EnterAlternate(s).normal == Some(s.buf)
  {
    hide BufferOk, PaletteOk, AttrOk, RenderRow, FreshBuffer;
    FreshIsOk(s);
  }

  /**
   Enter the alternate screen by any mode, run any guarded stream that does not leave, reset or resize, and leave by
   any mode: rows, scrollback, base, view, cursor, scroll region and tab stops are exactly as they were saved, and
   the page shows them.
   */
  lemma AlternateScreenIsIsolated(s: State, p: nat, data: string, q: nat)
    requires Ready(s) && s.normal.None? && IsAlternate(p) && IsAlternate(q)
    requires Writing(WithoutPrefix(EnterAlternate(s)))
    requires var a := WithoutPrefix(EnterAlternate(s));
             && Guarded(a, data) && StaysInside(a, data) && Excess(a, data) == 0
             && Run(a, data).parser.mode == Normal && Run(a, data).parser.prefix == ""
    ensures var t := Run(s, SwitchOn(p) + (data + SwitchOff(q)));
            Writing(t) && t.buf == s.buf && t.normal == None && InSync(t)
  {
    hide Writing, EnterAlternate, LeaveAlternate, Run, Guarded, StaysInside, InSync, SwitchOn, SwitchOff;
    var a := WithoutPrefix(EnterAlternate(s));
    EnterRun(s, p, data + SwitchOff(q));
    EnterSaves(s);
    RunShape(a, data);
    RunKeepsSaved(a, data);
    RunConcat(a, data, SwitchOff(q));
    assert Drop(SwitchOff(q), 0) == SwitchOff(q) == SwitchOff(q) + "";
    var b := Run(a, data);
    LeaveRun(b, q, "");
    LeftShows(b, q);
    RunEnds(Left(b, q));
  }

  /** Entering again while inside changes nothing but the parser. */
  lemma EnteringAgain(s: State, p: nat)
    requires Ready(s) && s.normal.Some? && IsAlternate(p)
    ensures var t := Run(s, SwitchOn(p)); t == s.(parser := Parser(Normal, [p], 0, "", ""))
  {
    hide Writing, Edit, Target, Set, ResetModes, Sequence;
    var u := s.(parser := Parser(Normal, [p], 0, "", "?"));
    ExecutingShape(s, "?", [p]);
    ExecutingShape(s, "", [p]);
    SequenceRoundTrip(s, "?", [p], 'h', "");
    assert SwitchOn(p) + "" == SwitchOn(p);
    assert [p][1..] == [];
    assert SetModes(u, [p]) == u;
    RunEnds(u.(parser := u.parser.(prefix := "")));
  }
}
