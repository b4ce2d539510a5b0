/** Outside control sequences no prefix is pending, so that streams between them meet no leftovers. */
module Prefixes {
  import opened Attributes
  import opened Rendering
  import opened TabStops
  import opened Screen
  import opened Emulator
  import opened Shape
  import opened Damage
  import opened ControlSequences
  import opened Sessions

  predicate PrefixOk(p: Parser) {
    p.mode != Csi && p.mode != Dcs ==> p.prefix == ""
  }

  lemma StepKeepsPrefix(s: State, ch: char)
    requires Writing(s) && PrefixOk(s.parser)
    ensures PrefixOk(Step(s, ch).parser)
  {
    hide Writing, StepNormal, StepEscaped, Execute, DcsReply;
    match s.parser.mode {
      case Normal => NormalKeepsPrefix(s, ch);
      case Escaped => EscapedKeepsPrefix(s, ch);
      case Csi => CsiKeepsPrefix(s, ch);
      case _ =>
    }
  }

  lemma NormalKeepsPrefix(s: State, ch: char)
    requires Writing(s) && PrefixOk(s.parser) && s.parser.mode == Normal
    ensures PrefixOk(StepNormal(s, ch).parser)
  {
    hide Writing, NextStop, SetGLevel, Wrap, Index;
    WrapIsOk(s);
    HomeColumnShape(s);
    CursorInside(s);
  }

  lemma EscapedKeepsPrefix(s: State, ch: char)
    requires Writing(s) && PrefixOk(s.parser) && s.parser.mode == Escaped
    ensures PrefixOk(StepEscaped(s, ch).parser)
  {
    hide Writing, EscapeCharsets, Index, ReverseIndex, FreshBuffer;
    CursorInside(s);
    HomeColumnShape(s);
    if ch == 'c' {
      ResetParser(s);
    }
  }

  lemma CsiKeepsPrefix(s: State, ch: char)
    requires Writing(s) && s.parser.mode == Csi
    ensures PrefixOk(StepCsi(s, ch).parser)
  {
    hide Writing, Execute;
    if !(IsPrefix(ch) || IsDigit(ch) || IsPostfix(ch) || ch == ';') {
      var ps := s.parser.params + [s.parser.currentParam];
      PrefixedWriting(s, Executing(s, ps));
    }
  }

  lemma {:induction false} RunKeepsPrefix(s: State, data: string)
    requires Writing(s) && PrefixOk(s.parser)
    ensures PrefixOk(Run(s, data).parser)
    decreases |data|, EscapedRank(s)
  {
    hide Writing, Step, PrefixOk;
    if data != [] {
      StepKeepsPrefix(s, data[0]);
      StepAdvances(s, data);
      var s' := Step(s, data[0]);
      if Writing(s') {
        RunKeepsPrefix(s', Drop(data, Advance(s.parser.mode, data[0])));
      }
    }
  }

  lemma CallKeepsPrefix(s: State, c: Call)
    requires Valid(s) && PrefixOk(s.parser)
    ensures PrefixOk(Do(s, c).parser)
  {
    hide BufferOk, PaletteOk, AttrOk, RenderRow, Run, PrefixOk, FitLines, Fit;
    if c.Write? {
      RunKeepsPrefix(Begin(s), c.data);
    }
  }

  lemma {:induction false} SessionKeepsPrefix(s: State, calls: seq<Call>)
    requires Valid(s) && PrefixOk(s.parser)
    ensures PrefixOk(Session(s, calls).parser)
    decreases |calls|
  {
    hide Valid, Do, PrefixOk;
    if calls != [] {
      CallKeepsPrefix(s, calls[0]);
      if Valid(Do(s, calls[0])) {
        SessionKeepsPrefix(Do(s, calls[0]), calls[1..]);
      }
    }
  }

  /**
   After any session of a new terminal that ends with a write and outside a sequence, the next sequence is read
   afresh.
   */
  lemma ReadyBetweenSequences(env: Env, cols: nat, rows: nat, calls: seq<Call>)
    requires EnvOk(env) && 1 <= cols && 1 <= rows
    requires Valid(NewTerminal(env, cols, rows))
    requires var t := Session(NewTerminal(env, cols, rows), calls); Writing(t) && t.parser.mode == Normal
    ensures Ready(Session(NewTerminal(env, cols, rows), calls))
  {
    hide Valid, Writing, Session, NewTerminal;
    OpenedParser(env, cols, rows);
    SessionKeepsPrefix(NewTerminal(env, cols, rows), calls);
  }

  lemma OpenedParser(env: Env, cols: nat, rows: nat)
    requires EnvOk(env) && 1 <= cols && 1 <= rows
    ensures NewTerminal(env, cols, rows).parser == INITIAL_PARSER
  {
    hide PaletteOk, AttrOk, RenderRow, FreshBuffer;
  }
}
