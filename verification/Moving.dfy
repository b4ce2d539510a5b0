/** Where each command puts the cursor, as a program on the other end sees it. */
module Moving {
  import opened Shifts
  import opened TabStops
  import opened Screen
  import opened Emulator
  import opened Shape
  import opened ControlSequences
  import opened SmallTexts
  import opened Commands

  /** A text moves the cursor to a place and changes nothing else. */
  ghost predicate MovesTo(s: State, text: string, x: int, y: int)
    requires Ready(s)
  {
    var t := Run(s, text);
    Ready(t) && t == s.(buf := s.buf.(x := x, y := y), parser := t.parser)
  }

  lemma MoveRun(s: State, f: char, ps: seq<nat>)
    requires Ready(s) && |ps| > 0 && IsMove(f) && GuardCsi(s, f, ps)
    ensures var (x, y) := Target(s, f, ps); MovesTo(s, Sequence("", ps, f), x, y)
  {
    hide Writing, Run, Sequence, Target, GuardCsi;
    OneSequence(s, "", ps, f);
    ExecutingShape(s, "", ps);
    var u := s.(parser := Parser(Normal, ps, 0, "", ""));
    SameGuard(s, f, ps);
    SameTarget(s, f, ps);
    MoveShape(u, f, ps);
    PrefixIrrelevant(Execute(u, f, ps), "");
  }

  lemma SameGuard(s: State, f: char, ps: seq<nat>)
    requires |ps| > 0 && s.parser.prefix == ""
    ensures GuardCsi(s.(parser := Parser(Normal, ps, 0, "", "")), f, ps) == GuardCsi(s, f, ps)
  {
  }

  lemma SameTarget(s: State, f: char, ps: seq<nat>)
    requires |ps| > 0
    ensures Target(s.(parser := Parser(Normal, ps, 0, "", "")), f, ps) == Target(s, f, ps)
  {
  }

  // ---------------------------------------------------------------- relative moves

  /** CUU, CUD, CUF, CUB: up, down, right and left, stopping at the edges. */
  lemma ArrowKeys(s: State, n: nat)
    requires Ready(s)
    ensures var x, y, d := s.buf.x, s.buf.y, Max(1, n);
            && MovesTo(s, Command(n, 'A'), x, Max(0, y - d))
            && MovesTo(s, Command(n, 'B'), x, Min(y + d, s.rows - 1))
            && MovesTo(s, Command(n, 'C'), Min(x + d, s.cols - 1), y)
            && MovesTo(s, Command(n, 'D'), Max(0, x - d), y)
  {
    hide Writing, MovesTo, Sequence;
    MoveRun(s, 'A', [n]);
    MoveRun(s, 'B', [n]);
    MoveRun(s, 'C', [n]);
    MoveRun(s, 'D', [n]);
  }

  /** CNL and CPL go to the first column; HPR and VPR move right and down. */
  lemma LinesAndRelatives(s: State, n: nat)
    requires Ready(s)
    ensures var x, y, d := s.buf.x, s.buf.y, Max(1, n);
            && MovesTo(s, Command(n, 'E'), 0, Min(y + d, s.rows - 1))
            && MovesTo(s, Command(n, 'F'), 0, Max(0, y - d))
            && MovesTo(s, Command(n, 'a'), Min(x + d, s.cols - 1), y)
            && MovesTo(s, Command(n, 'e'), x, Min(y + d, s.rows - 1))
  {
    hide Writing, MovesTo, Sequence;
    MoveRun(s, 'E', [n]);
    MoveRun(s, 'F', [n]);
    MoveRun(s, 'a', [n]);
    MoveRun(s, 'e', [n]);
  }

  // ---------------------------------------------------------------- absolute moves

  /** CUP and HVP: row and column counted from one, zero meaning one, stopping at the last row and column. */
  lemma Positions(s: State, row: nat, column: nat)
    requires Ready(s)
    ensures var x, y := Min(Max(1, column) - 1, s.cols - 1), Min(Max(1, row) - 1, s.rows - 1);
            && MovesTo(s, Sequence("", [row, column], 'H'), x, y)
            && MovesTo(s, Sequence("", [row, column], 'f'), x, y)
            && MovesTo(s, Command(row, 'H'), 0, y)
  {
    hide Writing, MovesTo, Sequence;
    MoveRun(s, 'H', [row, column]);
    MoveRun(s, 'f', [row, column]);
    MoveRun(s, 'H', [row]);
  }

  /** HPA and VPA stop at the edges; CHA goes where it is told, up to the column of a pending wrap. */
  lemma ColumnsAndRows(s: State, n: nat)
    requires Ready(s)
    ensures MovesTo(s, Command(n, '`'), Min(Max(1, n) - 1, s.cols - 1), s.buf.y)
    ensures MovesTo(s, Command(n, 'd'), s.buf.x, Min(Max(1, n) - 1, s.rows - 1))
    ensures n <= s.cols + 1 ==> MovesTo(s, Command(n, 'G'), Max(1, n) - 1, s.buf.y)
  {
    hide Writing, MovesTo, Sequence;
    MoveRun(s, '`', [n]);
    MoveRun(s, 'd', [n]);
    if n <= s.cols + 1 {
      MoveRun(s, 'G', [n]);
    }
  }

  /** The buffer that CUP to column x and row y and a further text leave. */
  ghost function From(s: State, x: nat, y: nat, text: string): Buffer
    requires Ready(s)
  {
    Run(s, Goto(x, y) + text).buf
  }

  lemma FromPlace(s: State, x: nat, y: nat, text: string, x': nat, y': nat)
    requires Ready(s) && x < s.cols && y < s.rows && x' < s.cols && y' < s.rows
    requires Ready(Gone(s, x, y)) ==> MovesTo(Gone(s, x, y), text, x', y')
    ensures From(s, x, y, text) == From(s, x', y', "")
  {
    hide Writing, Run, Goto;
    GotoRun(s, x, y, text);
    GotoRun(s, x', y', "");
    RunEnds(Gone(s, x', y'));
  }

  lemma GoneIs(s: State, x: nat, y: nat)
    requires Ready(s) && x < s.cols && y < s.rows
    ensures var g := Gone(s, x, y); Ready(g) && g.buf.x == x && g.buf.y == y && g.cols == s.cols && g.rows == s.rows
  {
    hide Writing, Run, Goto;
    GotoRun(s, x, y, "");
  }

  /** Every move from a place is CUP to the place where it ends: the moves along a row. */
  lemma ColumnMovesAgainstCup(s: State, x: nat, y: nat, n: nat)
    requires Ready(s) && x < s.cols && y < s.rows
    ensures var d, right := Max(1, n), s.cols - 1;
            && From(s, x, y, Command(n, 'C')) == From(s, Min(x + d, right), y, "")
            && From(s, x, y, Command(n, 'D')) == From(s, Max(0, x - d), y, "")
            && From(s, x, y, Command(n, 'a')) == From(s, Min(x + d, right), y, "")
            && From(s, x, y, Command(n, '`')) == From(s, Min(d - 1, right), y, "")
            && (d <= s.cols ==> From(s, x, y, Command(n, 'G')) == From(s, d - 1, y, ""))
  {
    hide Writing, Ready, MovesTo, Command, From, Gone;
    var d, right := Max(1, n), s.cols - 1;
    GoneIs(s, x, y);
    var g := Gone(s, x, y);
    ArrowKeys(g, n);
    LinesAndRelatives(g, n);
    ColumnsAndRows(g, n);
    FromPlace(s, x, y, Command(n, 'C'), Min(x + d, right), y);
    FromPlace(s, x, y, Command(n, 'D'), Max(0, x - d), y);
    FromPlace(s, x, y, Command(n, 'a'), Min(x + d, right), y);
    FromPlace(s, x, y, Command(n, '`'), Min(d - 1, right), y);
    if d <= s.cols {
      FromPlace(s, x, y, Command(n, 'G'), d - 1, y);
    }
  }

  /** And the moves between rows. */
  lemma RowMovesAgainstCup(s: State, x: nat, y: nat, n: nat)
    requires Ready(s) && x < s.cols && y < s.rows
    ensures var d, bottom := Max(1, n), s.rows - 1;
            && From(s, x, y, Command(n, 'A')) == From(s, x, Max(0, y - d), "")
            && From(s, x, y, Command(n, 'B')) == From(s, x, Min(y + d, bottom), "")
            && From(s, x, y, Command(n, 'E')) == From(s, 0, Min(y + d, bottom), "")
            && From(s, x, y, Command(n, 'F')) == From(s, 0, Max(0, y - d), "")
            && From(s, x, y, Command(n, 'e')) == From(s, x, Min(y + d, bottom), "")
            && From(s, x, y, Command(n, 'd')) == From(s, x, Min(d - 1, bottom), "")
  {
    hide Writing, Ready, MovesTo, Command, From, Gone;
    var d, bottom := Max(1, n), s.rows - 1;
    GoneIs(s, x, y);
    var g := Gone(s, x, y);
    ArrowKeys(g, n);
    LinesAndRelatives(g, n);
    ColumnsAndRows(g, n);
    FromPlace(s, x, y, Command(n, 'A'), x, Max(0, y - d));
    FromPlace(s, x, y, Command(n, 'B'), x, Min(y + d, bottom));
    FromPlace(s, x, y, Command(n, 'E'), 0, Min(y + d, bottom));
    FromPlace(s, x, y, Command(n, 'F'), 0, Max(0, y - d));
    FromPlace(s, x, y, Command(n, 'e'), x, Min(y + d, bottom));
    FromPlace(s, x, y, Command(n, 'd'), x, Min(d - 1, bottom));
  }

  // ---------------------------------------------------------------- control characters

  lemma ControlRun(s: State, ch: char)
    requires Ready(s) && ch < ' ' && ch != ESC
    ensures Ready(StepNormal(s, ch)) && Run(s, [ch]) == StepNormal(s, ch)
  {
    hide Writing, Run, NextStop, IndexLine, Print, SetGLevel;
    StepNormalShape(s, ch);
    NormalStays(s, ch);
    RunStep(s, ch, "");
    RunEnds(StepNormal(s, ch));
    assert [ch] + "" == [ch];
  }

  lemma NormalStays(s: State, ch: char)
    requires Writing(s) && ch < ' ' && ch != ESC
    ensures StepNormal(s, ch).parser == s.parser
  {
    hide Writing, Index, NextStop, SetGLevel;
    CursorInside(s);
    HomeColumnShape(s);
  }

  /** CR goes to the first column, BS one column back. */
  lemma ReturnAndBackspace(s: State)
    requires Ready(s)
    ensures MovesTo(s, "\r", 0, s.buf.y) && MovesTo(s, [8 as char], Max(0, s.buf.x - 1), s.buf.y)
  {
    hide Writing, Run, NextStop, IndexLine, Print, SetGLevel;
    ControlRun(s, '\r');
    ControlRun(s, BS);
  }

  /** A column with a stop, and the places that tabs lead to. */
  predicate FirstStopAfter(tabs: set<int>, cols: int, x: int, t: int) {
    if exists i :: x < i < cols && i in tabs then x < t < cols && t in tabs && forall i | x < i < t :: i !in tabs
    else t == cols - 1
  }

  predicate LastStopBefore(tabs: set<int>, x: int, t: int) {
    if exists i :: 0 < i < x && i in tabs then 0 < t < x && t in tabs && forall i | t < i < x :: i !in tabs
    else t == 0
  }

  /**
   HT and CHT 1 go to the next stop on the screen, or to the last column; CBT 1 to the stop before, or to the first.
   */
  lemma Tabs(s: State)
    requires Ready(s)
    ensures var ht, cht, cbt := Run(s, "\t").buf.x, Run(s, Command(1, 'I')).buf.x, Run(s, Command(1, 'Z')).buf.x;
            && MovesTo(s, "\t", ht, s.buf.y) && MovesTo(s, Command(1, 'I'), cht, s.buf.y)
            && MovesTo(s, Command(1, 'Z'), cbt, s.buf.y)
            && ht == cht && FirstStopAfter(s.buf.tabs, s.cols, s.buf.x, ht) && LastStopBefore(s.buf.tabs, s.buf.x, cbt)
  {
    hide Writing, Run, Sequence, Target, StepNormal, FirstStopAfter, LastStopBefore;
    CursorInside(s);
    ControlRun(s, '\t');
    MoveRun(s, 'I', [1]);
    MoveRun(s, 'Z', [1]);
    TabTargets(s);
  }

  lemma TabTargets(s: State)
    requires Writing(s) && 0 <= s.buf.x <= s.cols && 1 <= s.cols
    ensures Target(s, 'I', [1]).1 == s.buf.y && Target(s, 'Z', [1]).1 == s.buf.y
    ensures StepNormal(s, '\t') == To(s, Target(s, 'I', [1]).0, s.buf.y)
    ensures FirstStopAfter(s.buf.tabs, s.cols, s.buf.x, Target(s, 'I', [1]).0)
    ensures LastStopBefore(s.buf.tabs, s.buf.x, Target(s, 'Z', [1]).0)
  {
    hide Writing, IndexLine, Print, SetGLevel, NextStop, PrevStop;
    var tabs, cols, x := s.buf.tabs, s.cols, s.buf.x;
    NextIsFirst(tabs, cols, x);
    PrevIsLast(tabs, x);
    assert ForwardTabs(tabs, cols, x, 1) == ForwardTabs(tabs, cols, NextStop(tabs, cols, x), 0);
    assert BackTabs(tabs, x, 1) == BackTabs(tabs, PrevStop(tabs, x), 0);
  }

  lemma NextIsFirst(tabs: set<int>, cols: int, x: int)
    requires 0 <= x <= cols && 1 <= cols
    ensures FirstStopAfter(tabs, cols, x, NextStop(tabs, cols, x))
  {
    NextStopIsLeast(tabs, cols, x);
    hide NextStop;
  }

  lemma PrevIsLast(tabs: set<int>, x: int)
    requires 0 <= x
    ensures LastStopBefore(tabs, x, PrevStop(tabs, x))
  {
    PrevStopIsGreatest(tabs, x);
    hide PrevStop;
  }

  /** CHT n + 1 is CHT 1 and then CHT n, and so for CBT. */
  lemma TabsAdd(s: State, n: nat)
    requires Ready(s) && 1 <= n
    ensures Ready(Run(s, Command(1, 'I'))) && Ready(Run(s, Command(1, 'Z')))
    ensures Run(s, Command(n + 1, 'I')).buf == Run(Run(s, Command(1, 'I')), Command(n, 'I')).buf
    ensures Run(s, Command(n + 1, 'Z')).buf == Run(Run(s, Command(1, 'Z')), Command(n, 'Z')).buf
  {
    hide Writing, Run, Sequence, NextStop, PrevStop;
    MoveRun(s, 'I', [1]);
    MoveRun(s, 'Z', [1]);
    MoveRun(s, 'I', [n + 1]);
    MoveRun(s, 'Z', [n + 1]);
    MoveRun(Run(s, Command(1, 'I')), 'I', [n]);
    MoveRun(Run(s, Command(1, 'Z')), 'Z', [n]);
  }
}
