/**
 Chunk independence: how a stream is cut into calls of `write` does not matter, except that a
 character swallowed by an introducer is only swallowed inside one call.
 */
module Chunks {
  import opened Options
  import opened Shifts
  import opened Attributes
  import opened Rendering
  import opened TabStops
  import opened Screen
  import opened Emulator
  import opened Shape

  /** Equal apart from damage range and row elements. */
  predicate SameCore(s: State, t: State) {
    t == s.(paint := t.paint)
  }

  lemma IndexIgnoresPaint(s: State, t: State)
    requires Writing(s) && Writing(t) && SameCore(s, t)
    ensures SameCore(IndexLine(s), IndexLine(t)) && SameCore(ReverseIndexLine(s), ReverseIndexLine(t))
  {
    hide Writing, Index, ReverseIndex;
  }

  lemma PrintIgnoresPaint(s: State, t: State, ch: char)
    requires Writing(s) && Writing(t) && SameCore(s, t)
    ensures SameCore(Print(s, ch), Print(t, ch))
  {
    hide Writing, Wrap, PutCell;
    WrapIsOk(s);
    WrapIsOk(t);
    WrapIgnoresPaint(s, t);
  }

  lemma WrapIgnoresPaint(s: State, t: State)
    requires Writing(s) && Writing(t) && SameCore(s, t)
    ensures SameCore(Wrap(s), Wrap(t))
  {
    hide Writing, IndexLine;
    HomeColumnShape(s);
    HomeColumnShape(t);
    IndexIgnoresPaint(To(s, 0, s.buf.y), To(t, 0, t.buf.y));
  }

  lemma SwitchIgnoresPaint(s: State, t: State)
    requires Writing(s) && Writing(t) && SameCore(s, t)
    ensures SameCore(Reset(s), Reset(t))
    ensures SameCore(EnterAlternate(s), EnterAlternate(t)) && SameCore(LeaveAlternate(s), LeaveAlternate(t))
  {
    FreshIsOk(s);
    FreshIsOk(t);
    hide LineOk, PaletteOk, AttrOk, RenderRow, FreshBuffer;
  }

  lemma ResizeIgnoresPaint(s: State, t: State, cols: int, rows: int)
    requires Valid(s) && Valid(t) && SameCore(s, t)
    ensures SameCore(Resize(s, cols, rows), Resize(t, cols, rows))
  {
    ResizedIsOk(s, Max(cols, 1), Max(rows, 1));
    ResizedIsOk(t, Max(cols, 1), Max(rows, 1));
    hide Renderable, BufferOk, AttrOk, RenderRow, ResizeBuffer, Fit;
  }

  lemma SetModeIgnoresPaint(s: State, t: State, p: nat)
    requires Writing(s) && Writing(t) && SameCore(s, t)
    ensures SameCore(SetMode(s, p), SetMode(t, p))
  {
    hide Writing, Valid, Resize, EnterAlternate, LeaveAlternate, AllAscii;
    if s.parser.prefix == "?" {
      if p == 2 {
        CursorInside(s);
      } else if p == 3 {
        WideIgnoresPaint(s, t);
      } else if IsAlternate(p) {
        SwitchIgnoresPaint(s, t);
      }
    }
  }

  lemma NarrowIgnoresPaint(s: State, t: State)
    requires Writing(s) && Writing(t) && SameCore(s, t) && s.savedCols.Some?
    ensures SameCore(Resize(s, s.savedCols.value, s.rows), Resize(t, t.savedCols.value, t.rows))
  {
    hide BufferOk, PaletteOk, AttrOk, Resize;
    ResizeIgnoresPaint(s, t, s.savedCols.value, s.rows);
  }

  lemma ResetModeIgnoresPaint(s: State, t: State, p: nat)
    requires Writing(s) && Writing(t) && SameCore(s, t)
    ensures SameCore(ResetMode(s, p), ResetMode(t, p))
  {
    hide Writing, Valid, Resize, EnterAlternate, LeaveAlternate;
    if s.parser.prefix == "?" {
      if p == 3 {
        if s.savedCols.Some? {
          NarrowIgnoresPaint(s, t);
        }
      } else if IsAlternate(p) {
        SwitchIgnoresPaint(s, t);
      }
    }
  }

  lemma WideIgnoresPaint(s: State, t: State)
    requires Writing(s) && Writing(t) && SameCore(s, t)
    ensures Valid(s.(savedCols := Some(s.cols))) && Valid(t.(savedCols := Some(t.cols)))
    ensures SameCore(Resize(s.(savedCols := Some(s.cols)), 132, s.rows),
                     Resize(t.(savedCols := Some(t.cols)), 132, t.rows))
  {
    CursorInside(s);
    hide BufferOk, PaletteOk, AttrOk, Resize;
    ResizeIgnoresPaint(s.(savedCols := Some(s.cols)), t.(savedCols := Some(t.cols)), 132, s.rows);
  }

  lemma {:induction false} SetModesIgnorePaint(s: State, t: State, ps: seq<nat>)
    requires Writing(s) && Writing(t) && SameCore(s, t)
    ensures SameCore(SetModes(s, ps), SetModes(t, ps))
    decreases |ps|
  {
    hide Writing, SetMode;
    if ps != [] {
      SetModeIsValid(s, ps[0]);
      SetModeIsValid(t, ps[0]);
      SetModeIgnoresPaint(s, t, ps[0]);
      SetModesIgnorePaint(SetMode(s, ps[0]), SetMode(t, ps[0]), ps[1..]);
    }
  }

  lemma {:induction false} ResetModesIgnorePaint(s: State, t: State, ps: seq<nat>)
    requires Writing(s) && Writing(t) && SameCore(s, t)
    ensures SameCore(ResetModes(s, ps), ResetModes(t, ps))
    decreases |ps|
  {
    hide Writing, ResetMode;
    if ps != [] {
      ResetModeIsValid(s, ps[0]);
      ResetModeIsValid(t, ps[0]);
      ResetModeIgnoresPaint(s, t, ps[0]);
      ResetModesIgnorePaint(ResetMode(s, ps[0]), ResetMode(t, ps[0]), ps[1..]);
    }
  }

  lemma EditedIgnoresPaint(s: State, t: State, f: char, ps: seq<nat>)
    requires Writing(s) && Writing(t) && SameCore(s, t) && |ps| > 0
    ensures EditedBuffer(s, f, ps) == EditedBuffer(t, f, ps)
  {
    CursorInside(s);
    hide Writing, BufferOk, EditBuffer;
  }

  lemma DamageIgnoresPaint(s: State, t: State, f: char, ps: seq<nat>)
    requires SameCore(s, t) && |ps| > 0
    ensures EditDamage(s, f, ps) == EditDamage(t, f, ps)
  {
  }

  lemma EditIgnoresPaint(s: State, t: State, f: char, ps: seq<nat>)
    requires Writing(s) && Writing(t) && SameCore(s, t) && |ps| > 0
    ensures SameCore(Edit(s, f, ps), Edit(t, f, ps))
  {
    hide Writing, EditedBuffer, EditDamage;
    EditedIgnoresPaint(s, t, f, ps);
    DamageIgnoresPaint(s, t, f, ps);
  }

  lemma TargetIgnoresPaint(s: State, t: State, f: char, ps: seq<nat>)
    requires SameCore(s, t) && |ps| > 0
    ensures Target(s, f, ps) == Target(t, f, ps)
  {
    hide ForwardTabs, BackTabs;
  }

  lemma ExecuteIgnoresPaint(s: State, t: State, f: char, ps: seq<nat>)
    requires Writing(s) && Writing(t) && SameCore(s, t) && |ps| > 0
    ensures SameCore(Execute(s, f, ps), Execute(t, f, ps))
  {
    CursorInside(s);
    hide Writing, Edit, Target, IsMove, IsEdit, SetModes, ResetModes, Restyle, Reported, Identified, SetBuffer;
    if IsMove(f) {
      TargetIgnoresPaint(s, t, f, ps);
    } else if IsEdit(f) {
      EditIgnoresPaint(s, t, f, ps);
    } else if f == 'h' {
      SetModesIgnorePaint(s, t, ps);
    } else if f == 'l' {
      ResetModesIgnorePaint(s, t, ps);
    }
  }

  lemma StepIgnoresPaint(s: State, t: State, ch: char)
    requires Writing(s) && Writing(t) && SameCore(s, t)
    ensures SameCore(Step(s, ch), Step(t, ch))
  {
    CursorInside(s);
    hide Writing, StepNormal, StepEscaped, StepCsi, OscParser, DcsParser, DcsReply;
    match s.parser.mode {
      case Normal => StepNormalIgnoresPaint(s, t, ch);
      case Escaped => StepEscapedIgnoresPaint(s, t, ch);
      case Csi => StepCsiIgnoresPaint(s, t, ch);
      case _ =>
    }
  }

  lemma StepNormalIgnoresPaint(s: State, t: State, ch: char)
    requires Writing(s) && Writing(t) && SameCore(s, t)
    ensures SameCore(StepNormal(s, ch), StepNormal(t, ch))
  {
    CursorInside(s);
    CursorInside(t);
    if IsLineFeed(ch) {
      ColumnShape(s, 0);
      ColumnShape(t, 0);
      IndexIgnoresPaint(s, t);
      IndexIgnoresPaint(To(s, 0, s.buf.y), To(t, 0, t.buf.y));
    } else if ch >= ' ' {
      PrintIgnoresPaint(s, t, ch);
    }
    hide Writing, IndexLine, Print, NextStop;
  }

  lemma ScreenEscapeIgnoresPaint(s: State, t: State, ch: char)
    requires Writing(s) && Writing(t) && SameCore(s, t) && IsScreenEscape(ch)
    ensures SameCore(ScreenEscape(s, ch), ScreenEscape(t, ch))
  {
    hide Writing, IndexLine, ReverseIndexLine, Reset, BufferOk;
    CursorInside(s);
    CursorInside(t);
    if ch == 'c' {
      SwitchIgnoresPaint(s, t);
    } else {
      ColumnShape(s, 0);
      ColumnShape(t, 0);
      IndexIgnoresPaint(s, t);
      IndexIgnoresPaint(To(s, 0, s.buf.y), To(t, 0, t.buf.y));
    }
  }

  lemma StepEscapedIgnoresPaint(s: State, t: State, ch: char)
    requires Writing(s) && Writing(t) && SameCore(s, t)
    ensures SameCore(StepEscaped(s, ch), StepEscaped(t, ch))
  {
    CursorInside(s);
    hide Writing, ScreenEscape, IsScreenEscape, EscapeParser, EscapeCharsets, EscapeBuffer;
    if IsScreenEscape(ch) {
      ScreenEscapeIgnoresPaint(s, t, ch);
    }
  }

  lemma StepCsiIgnoresPaint(s: State, t: State, ch: char)
    requires Writing(s) && Writing(t) && SameCore(s, t)
    ensures SameCore(StepCsi(s, ch), StepCsi(t, ch))
  {
    if !(IsPrefix(ch) || IsDigit(ch) || IsPostfix(ch) || ch == ';') {
      var p := s.parser;
      var ps := p.params + [p.currentParam];
      var p' := p.(mode := Normal, params := ps, currentParam := 0);
      CursorInside(s);
      CursorInside(t);
      SmallShape(s, s.queue, s.savedX, s.savedY, s.charsets, p', s.title);
      SmallShape(t, t.queue, t.savedX, t.savedY, t.charsets, p', t.title);
      ExecuteIgnoresPaint(s.(parser := p'), t.(parser := p'), ch, ps);
    }
    hide Writing, Execute;
  }

  lemma GuardIgnoresPaint(s: State, t: State, ch: char)
    requires SameCore(s, t)
    ensures Guard(s, ch) == Guard(t, ch)
  {
  }

  lemma {:induction false} RunIgnoresPaint(s: State, t: State, data: string)
    requires Writing(s) && Writing(t) && SameCore(s, t)
    ensures SameCore(Run(s, data), Run(t, data))
    ensures Writing(Run(s, data)) <==> Writing(Run(t, data))
    decreases |data|, EscapedRank(s)
  {
    if data != [] {
      StepShape(s, data[0]);
      StepShape(t, data[0]);
      GuardIgnoresPaint(s, t, data[0]);
      StepIgnoresPaint(s, t, data[0]);
      hide Writing, Step, Guard;
      if Guard(s, data[0]) {
        StepAdvances(s, data);
        RunIgnoresPaint(Step(s, data[0]), Step(t, data[0]), Drop(data, Advance(s.parser.mode, data[0])));
      }
    }
  }

  // ---------------------------------------------------------------- cutting a stream

  /**
   How many characters after data are swallowed by its last character: ESC %, ESC #, ESC ( /, or ESC inside OSC, DCS,
   PM and APC.
   */
  ghost function Excess(s: State, data: string): nat
    requires Writing(s)
    decreases |data|, EscapedRank(s)
  {
    hide Writing, StepNormal, StepCsi, StepOsc, StepCharset, StepDcs, StepIgnore;
    if data == [] then 0
    else
      var n := Advance(s.parser.mode, data[0]);
      StepAdvances(s, data);
      if n > |data| then n - |data|
      else if Writing(Step(s, data[0])) then Excess(Step(s, data[0]), data[n..])
      else 0
  }

  /** Running a concatenation: the second part starts after what the first part swallows of it. */
  lemma {:induction false} RunConcat(s: State, a: string, b: string)
    requires Writing(s) && Writing(Run(s, a))
    ensures Run(s, a + b) == Run(Run(s, a), Drop(b, Excess(s, a)))
    decreases |a|, EscapedRank(s)
  {
    hide Writing, Step;
    if a == [] {
      assert a + b == b;
    } else {
      var n := Advance(s.parser.mode, a[0]);
      StepAdvances(s, a);
      assert (a + b)[0] == a[0];
      if n > |a| {
        assert Drop(a, n) == [];
        assert Drop(a + b, n) == Drop(b, n - |a|);
      } else {
        assert Drop(a + b, n) == Drop(a, n) + b;
        RunConcat(Step(s, a[0]), a[n..], b);
      }
    }
  }

  /**
   Two calls of `write` leave the same terminal as one call with the concatenation, damage range and row
   elements aside, if the second call starts after the characters the first one would have swallowed.
   */
  lemma WriteConcat(s: State, a: string, b: string)
    requires Valid(s) && Guarded(Begin(s), a)
    ensures Valid(Write(s, a))
    ensures SameCore(Write(s, a + b), Write(Write(s, a), Drop(b, Excess(Begin(s), a))))
  {
    var s0 := Begin(s);
    RunShape(s0, a);
    RunConcat(s0, a, b);
    var s1 := Run(s0, a);
    FinishShape(s1);
    var rest := Drop(b, Excess(s0, a));
    var s2 := Begin(Finish(s1));
    assert SameCore(s1, Finish(s1)) by { hide Writing; }
    assert SameCore(Finish(s1), s2) by { BeginKeepsCore(Finish(s1)); }
    RunIgnoresPaint(s1, s2, rest);
    hide Writing, Valid, Run, Begin, Finish, Excess, Guarded;
    FinishKeepsCore(Run(s1, rest));
    FinishKeepsCore(Run(s2, rest));
  }

  lemma BeginKeepsCore(s: State)
    requires Writing(s)
    ensures SameCore(s, Begin(s))
  {
    hide BufferOk, PaletteOk, AttrOk;
  }

  lemma FinishKeepsCore(s: State)
    ensures Writing(s) ==> SameCore(s, Finish(s))
  {
    hide BufferOk, PaletteOk, AttrOk;
  }

  /** In particular every cut after which nothing is swallowed is invisible. */
  lemma WriteInChunks(s: State, a: string, b: string)
    requires Valid(s) && Guarded(Begin(s), a) && Excess(Begin(s), a) == 0
    ensures Valid(Write(s, a)) && SameCore(Write(s, a + b), Write(Write(s, a), b))
  {
    WriteConcat(s, a, b);
    assert Drop(b, 0) == b;
    hide Writing, Valid, Write, Excess, Guarded;
  }
}
