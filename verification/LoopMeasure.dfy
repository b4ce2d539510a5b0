/** The loop of `write` ends for every text, whatever becomes of the screen: only the parser's mode moves its index. */
module LoopMeasure {
  import opened TabStops
  import opened Screen
  import opened Emulator
  import opened Shape
  import opened ControlSequences

  /** The mode after a character. */
  function ModeAfter(mode: Mode, ch: char): Mode {
    match mode
    case Normal => if ch == ESC then Escaped else Normal
    case Escaped =>
      if ch == '[' then Csi
      else if ch == ']' then Osc
      else if ch == 'P' then Dcs
      else if ch == '_' || ch == '^' then Ignore
      else if Designates(ch) then Charset
      else if SelectsLevel(ch) then Escaped
      else Normal
    case Csi => if IsFinal(ch) then Normal else Csi
    case Charset => Normal
    case _ => if ch == ESC || ch == BEL then Normal else mode
  }

  function ModeRank(mode: Mode): nat {
    if mode == Escaped then 1 else 0
  }

  /** Every round takes a character or leaves `escaped`; this needs no guard. */
  lemma RoundAdvances(mode: Mode, ch: char)
    ensures 1 <= Advance(mode, ch) || ModeRank(ModeAfter(mode, ch)) < ModeRank(mode)
  {
  }

  /** How many rounds the loop makes. */
  function Rounds(mode: Mode, data: string): nat
    decreases |data|, ModeRank(mode)
  {
    if data == [] then 0
    else
      RoundAdvances(mode, data[0]);
      1 + Rounds(ModeAfter(mode, data[0]), Drop(data, Advance(mode, data[0])))
  }

  /** It makes at most one round more than there are characters, and that one only for an ESC / at the very end. */
  lemma {:induction false} RoundsAreFew(mode: Mode, data: string)
    ensures Rounds(mode, data) <= |data| + 1
    ensures Rounds(mode, data) == |data| + 1 ==> data != [] && data[|data| - 1] == '/'
    decreases |data|, ModeRank(mode)
  {
    if data != [] {
      var next, rest := ModeAfter(mode, data[0]), Drop(data, Advance(mode, data[0]));
      RoundsAreFew(next, rest);
      if mode == Escaped && data[0] == '/' {
        assert next == Charset && rest == data;
        var after := Drop(data, 2);
        RoundsAreFew(Normal, after);
        assert Rounds(Charset, data) == 1 + Rounds(Normal, after);
      }
    }
  }

  /** The mode of the machine moves exactly so. */
  lemma StepMode(s: State, ch: char)
    requires Writing(s)
    ensures Step(s, ch).parser.mode == ModeAfter(s.parser.mode, ch)
  {
    hide Writing, StepNormal, StepEscaped, StepCsi, DcsReply;
    match s.parser.mode {
      case Normal => NormalMode(s, ch);
      case Escaped => EscapedMode(s, ch);
      case Csi => CsiMode(s, ch);
      case _ =>
    }
  }

  lemma NormalMode(s: State, ch: char)
    requires Writing(s) && s.parser.mode == Normal
    ensures StepNormal(s, ch).parser.mode == ModeAfter(Normal, ch)
  {
    hide Writing, NextStop, SetGLevel, Wrap, Index;
    WrapIsOk(s);
    HomeColumnShape(s);
    CursorInside(s);
  }

  lemma EscapedMode(s: State, ch: char)
    requires Writing(s) && s.parser.mode == Escaped
    ensures StepEscaped(s, ch).parser.mode == ModeAfter(Escaped, ch)
  {
    hide Writing, EscapeCharsets, EscapeBuffer, Index, ReverseIndex;
    HomeColumnShape(s);
    CharsetsAreFour(s);
    CursorInside(s);
    if ch == 'c' {
      ResetParser(s);
    }
  }

  lemma CsiMode(s: State, ch: char)
    requires Writing(s) && s.parser.mode == Csi
    ensures StepCsi(s, ch).parser.mode == ModeAfter(Csi, ch)
  {
    hide Writing, Execute;
    if IsFinal(ch) {
      var ps := s.parser.params + [s.parser.currentParam];
      CommandReady(s, ps);
      ExecuteKeepsNormal(s.(parser := s.parser.(mode := Normal, params := ps, currentParam := 0)), ch, ps);
    }
  }
}
