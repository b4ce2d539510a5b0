/**
 The terminal as the source has it: an object whose methods update its fields and whose rows are
 objects edited in place. Every method is proved to do to the state what `Emulator` says.
 */
module Terminals {
  import opened Options
  import opened Shifts
  import opened Attributes
  import opened Rendering
  import opened TabStops
  import opened Screen
  import opened Emulator
  import opened Shape
  import opened ScrollSplices
  import opened EditSplices
  import opened RenderLoop
  import opened PackedSgr

  /** One line of the screen, an array of cells in the source. */
  class Row {
    var cells: Line

    constructor (cells: Line)
      ensures this.cells == cells
    {
      this.cells := cells;
    }
  }

  /** The object in which `setMode` keeps the main buffer. */
  datatype Saved = Saved(
    lines: seq<Row>,
    ybase: int,
    ydisp: int,
    x: int,
    y: int,
    scrollTop: int,
    scrollBottom: int,
    tabs: set<int>)

  ghost predicate Distinct<T>(s: seq<T>) {
    forall i, j | 0 <= i < j < |s| :: s[i] != s[j]
  }

  /** No row occurs twice, neither on the screen nor in the saved buffer, and all of them belong to owned. */
  ghost predicate Apart(screen: seq<Row>, saved: seq<Row>, owned: set<Row>) {
    && Distinct(screen) && Distinct(saved)
    && (forall r | r in screen :: r in owned && r !in saved)
    && (forall r | r in saved :: r in owned)
  }

  lemma ApartInsert(screen: seq<Row>, saved: seq<Row>, owned: set<Row>, i: nat, row: Row)
    requires Apart(screen, saved, owned) && row !in owned && i <= |screen|
    ensures Apart(Insert(screen, i, row), saved, owned + {row})
  {
  }

  lemma ApartRemove(screen: seq<Row>, saved: seq<Row>, owned: set<Row>, i: nat)
    requires Apart(screen, saved, owned)
    ensures Apart(Remove(screen, i), saved, owned)
  {
  }

  lemma ApartDrop(screen: seq<Row>, saved: seq<Row>, owned: set<Row>, i: nat)
    requires Apart(screen, saved, owned) && i <= |screen|
    ensures Apart(screen[i..], saved, owned) && Apart(screen[..i], saved, owned)
  {
  }

  /** What a list of rows holds. */
  ghost function Text(ls: seq<Row>): (t: seq<Line>)
    reads ls`cells
    ensures |t| == |ls| && forall i | 0 <= i < |ls| :: t[i] == ls[i].cells
  {
    if ls == [] then [] else Text(ls[..|ls| - 1]) + [ls[|ls| - 1].cells]
  }

  lemma {:induction false} TextInsert(ls: seq<Row>, i: nat, row: Row)
    requires i <= |ls|
    ensures Text(Insert(ls, i, row)) == Insert(Text(ls), i, row.cells)
  {
  }

  lemma {:induction false} TextRemove(ls: seq<Row>, i: nat)
    ensures Text(Remove(ls, i)) == Remove(Text(ls), i)
  {
  }

  lemma {:induction false} TextDrop(ls: seq<Row>, i: nat)
    requires i <= |ls|
    ensures Text(ls[i..]) == Text(ls)[i..]
  {
  }

  /** JavaScript's `line[i] = c` for an index up to the length of the array. */
  function SetCell(line: Line, i: nat, c: Cell): Line
    requires i <= |line|
  {
    if i < |line| then line[i := c] else line + [c]
  }

  lemma FillMore(line: Line, lo: nat, i: nat, c: Cell)
    requires lo <= |line| && lo <= i
    ensures |Fill(line, lo, i, c)| >= i
    ensures SetCell(Fill(line, lo, i, c), i, c) == Fill(line, lo, i + 1, c)
  {
  }

  /** A cell written at the cursor, which moves on. */
  function CellPut(b: Buffer, c: Cell): Buffer
    requires 0 <= b.ybase + b.y < |b.lines| && 0 <= b.x <= |VisibleLine(b, b.y)|
  {
    WithRow(b, b.y, SetCell(VisibleLine(b, b.y), b.x, c)).(x := b.x + 1)
  }

  /** k copies of a cell from the cursor on, and one more of them. */
  function Repeated(b: Buffer, c: Cell, k: nat): (r: Buffer)
    requires 0 <= b.ybase + b.y < |b.lines| && 0 <= b.x <= |VisibleLine(b, b.y)|
    ensures r == b.(lines := r.lines, x := b.x + k) && |r.lines| == |b.lines| && r.x <= |VisibleLine(r, r.y)|
  {
    WithRow(b, b.y, Fill(VisibleLine(b, b.y), b.x, b.x + k, c)).(x := b.x + k)
  }

  lemma RepeatedMore(b: Buffer, c: Cell, k: nat)
    requires 0 <= b.ybase + b.y < |b.lines| && 0 <= b.x <= |VisibleLine(b, b.y)|
    ensures Repeated(b, c, 0) == b
    ensures CellPut(Repeated(b, c, k), c) == Repeated(b, c, k + 1)
  {
    hide Fill, SetCell;
    FillNothing(b, b.y, b.x, c);
    FillMore(VisibleLine(b, b.y), b.x, b.x + k, c);
  }

  lemma SameRow(b: Buffer, k: int)
    requires 0 <= b.ybase + k < |b.lines|
    ensures WithRow(b, k, VisibleLine(b, k)) == b
  {
    assert b.lines[b.ybase + k := VisibleLine(b, k)] == b.lines;
  }

  lemma RowWritten(b: Buffer, k: int, line: Line)
    requires 0 <= b.ybase + k < |b.lines|
    ensures var r := WithRow(b, k, line);
            r.lines[b.ybase + k] == line && r == b.(lines := r.lines) && |r.lines| == |b.lines|
  {
  }

  lemma FillNothing(b: Buffer, k: int, x: nat, c: Cell)
    requires 0 <= b.ybase + k < |b.lines| && x <= |VisibleLine(b, k)|
    ensures WithRow(b, k, Fill(VisibleLine(b, k), x, x, c)) == b
  {
    assert Fill(VisibleLine(b, k), x, x, c) == VisibleLine(b, k);
    assert b.lines[b.ybase + k := VisibleLine(b, k)] == b.lines;
  }

  lemma EraseNothing(b: Buffer, lo: nat, cols: nat, c: Cell)
    requires 0 <= b.ybase && b.ybase + lo <= |b.lines|
    ensures EraseRows(b, lo, lo, cols, c) == b
  {
    assert EraseRows(b, lo, lo, cols, c).lines == b.lines;
  }

  /** Damage of the rows from lo to hi, hi excluded. */
  function TouchedRows(p: Paint, lo: int, hi: int): Paint {
    if lo < hi then Touched(Touched(p, lo), hi - 1) else p
  }

  lemma TouchedParts(p: Paint, y: nat, rows: nat)
    requires y < rows
    ensures TouchedRows(Touched(p, y), y + 1, rows) == Touched(Touched(p, y), rows - 1)
    ensures TouchedRows(Touched(p, y), 0, y) == Touched(Touched(p, 0), y)
    ensures TouchedRows(p, 0, rows) == Touched(Touched(p, 0), rows - 1)
  {
  }

  lemma PartErasures(b: Buffer, cols: int, rows: int, scrollback: int, c: Cell)
    requires BufferOk(b, cols, rows, scrollback)
    requires 0 <= b.ybase + b.y < |b.lines| && 0 <= b.x <= |VisibleLine(b, b.y)|
    ensures Screen.EraseInDisplay(b, cols, rows, scrollback, c, 0)
         == EraseRows(WithRow(b, b.y, Fill(VisibleLine(b, b.y), b.x, Max(b.x, cols), c)), b.y + 1, rows, cols, c)
    ensures Screen.EraseInDisplay(b, cols, rows, scrollback, c, 1)
         == EraseRows(WithRow(b, b.y, Fill(VisibleLine(b, b.y), 0, b.x + 1, c)), 0, b.y, cols, c)
  {
    hide LineOk, Fill, EraseRows;
  }

  lemma DisplayEdits(s: State, ps: seq<nat>)
    requires Writing(s) && |ps| > 0
    ensures BufferOk(s.buf, s.cols, s.rows, s.env.scrollback)
    ensures Edit(s, 'J', ps)
         == s.(buf := Screen.EraseInDisplay(s.buf, s.cols, s.rows, s.env.scrollback, Blank(s.curAttr), ps[0]),
               paint := if ps[0] == 0 then Touched(Touched(s.paint, s.buf.y), s.rows - 1)
                        else if ps[0] == 1 then Touched(Touched(s.paint, 0), s.buf.y)
                        else if ps[0] == 2 then Touched(Touched(s.paint, 0), s.rows - 1)
                        else s.paint)
    ensures ps[0] > 2 ==> Edit(s, 'J', ps) == s
  {
    hide Writing, BufferOk, EraseRows, Touched, Fill;
    CursorInside(s);
  }

  lemma DisplayErasures(b: Buffer, cols: int, rows: int, scrollback: int, c: Cell, how: nat)
    requires BufferOk(b, cols, rows, scrollback)
    ensures how == 2 ==> Screen.EraseInDisplay(b, cols, rows, scrollback, c, how) == EraseRows(b, 0, rows, cols, c)
    ensures how > 2 ==> Screen.EraseInDisplay(b, cols, rows, scrollback, c, how) == b
  {
  }

  /** Erasing one more row at the end of an erased range, or at its start. */
  lemma EraseMore(b: Buffer, lo: nat, hi: nat, cols: nat, c: Cell)
    requires 0 <= b.ybase && b.ybase + hi < |b.lines| && lo <= hi
    ensures var e := EraseRows(b, lo, hi, cols, c);
            WithRow(e, hi, Fill(VisibleLine(e, hi), 0, cols, c)) == EraseRows(b, lo, hi + 1, cols, c)
  {
    hide Fill;
    var e, g := EraseRows(b, lo, hi, cols, c), EraseRows(b, lo, hi + 1, cols, c);
    assert WithRow(e, hi, Fill(VisibleLine(e, hi), 0, cols, c)).lines == g.lines;
  }

  lemma EraseMoreAbove(b: Buffer, lo: nat, hi: nat, cols: nat, c: Cell)
    requires 0 <= b.ybase && b.ybase + hi <= |b.lines| && lo < hi
    ensures var e := EraseRows(b, lo + 1, hi, cols, c);
            WithRow(e, lo, Fill(VisibleLine(e, lo), 0, cols, c)) == EraseRows(b, lo, hi, cols, c)
  {
    hide Fill;
    var e, g := EraseRows(b, lo + 1, hi, cols, c), EraseRows(b, lo, hi, cols, c);
    assert WithRow(e, lo, Fill(VisibleLine(e, lo), 0, cols, c)).lines == g.lines;
  }

  class Terminal {
    const env: Env

    var cols: int
    var rows: int

    var lines: seq<Row>
    var ybase: int
    var ydisp: int
    var x: int
    var y: int
    var scrollTop: int
    var scrollBottom: int
    var tabs: set<int>
    var normal: Option<Saved>

    var curAttr: bv32
    var savedX: int
    var savedY: int
    var savedCols: Option<int>
    var cursorState: bool
    var cursorHidden: bool
    var convertEol: bool

    /** charsets, charset, glevel and gcharset. */
    var charsets: Charsets

    /** state, params, currentParam and prefix. */
    var parser: Parser

    var title: string
    var queue: string

    /** refreshStart, refreshEnd and the HTML of children. */
    var paint: Paint

    /** Every row object this terminal has made. */
    ghost var owned: set<Row>

    // -------------------------------------------------------------- what the object stands for

    ghost function SavedRows(): seq<Row>
      reads `normal
    {
      if normal.Some? then normal.value.lines else []
    }

    ghost predicate Separate()
      reads `lines, `normal, `owned
    {
      Apart(lines, SavedRows(), owned)
    }

    ghost function Shown(): (b: Buffer)
      reads `lines, `ybase, `ydisp, `x, `y, `scrollTop, `scrollBottom, `tabs, lines`cells
      ensures b.lines == Text(lines) && b.ybase == ybase && b.ydisp == ydisp && b.x == x && b.y == y
      ensures b.scrollTop == scrollTop && b.scrollBottom == scrollBottom && b.tabs == tabs
    {
      Buffer(Text(lines), ybase, ydisp, x, y, scrollTop, scrollBottom, tabs)
    }

    ghost function Kept(): Option<Buffer>
      reads `normal, SavedRows()`cells
    {
      if normal.None? then None
      else var n := normal.value;
           Some(Buffer(Text(SavedRows()), n.ybase, n.ydisp, n.x, n.y, n.scrollTop, n.scrollBottom, n.tabs))
    }

    /** All other fields, in a state whose buffers and row elements are empty. */
    ghost function Control(): (s: State)
      reads `cols, `rows, `curAttr, `savedX, `savedY, `savedCols, `cursorState, `cursorHidden, `convertEol,
        `charsets, `parser, `title, `queue
      ensures s.env == env && s.cols == cols && s.rows == rows && s.curAttr == curAttr
    {
      State(env, cols, rows, Buffer([], 0, 0, 0, 0, 0, 0, {}), None, curAttr, savedX, savedY, savedCols,
            cursorState, cursorHidden, convertEol, charsets, parser, title, queue, Paint(0, 0, []))
    }

    ghost function Abs(): (s: State)
      reads this, lines`cells, SavedRows()`cells
      ensures s.parser == parser && s.paint == paint
    {
      Control().(buf := Shown(), normal := Kept(), paint := paint)
    }

    lemma ControlFields()
      ensures var s := Control();
              && s.savedX == savedX && s.savedY == savedY && s.savedCols == savedCols
              && s.cursorState == cursorState && s.cursorHidden == cursorHidden && s.convertEol == convertEol
              && s.charsets == charsets && s.parser == parser && s.title == title && s.queue == queue
    {
    }

    ghost predicate Ok()
      reads this, lines`cells, SavedRows()`cells
    {
      Separate() && Writing(Abs())
    }

    ghost predicate CursorOk()
      reads `x, `y, `cols, `rows
    {
      0 <= x <= cols && 0 <= y < rows && 1 <= cols
    }

    // -------------------------------------------------------------- damage range

    method UpdateRange(y: int)
      modifies `paint
      ensures paint == Touched(old(paint), y)
      ensures Shown() == old(Shown()) && Kept() == old(Kept()) && Control() == old(Control())
    {
      hide Shown, Kept, Control, Text, Separate, SavedRows;
      if y < paint.start {
        paint := paint.(start := y);
      }
      if y > paint.end {
        paint := paint.(end := y);
      }
    }

    method MaxRange()
      modifies `paint
      ensures paint == Paint(0, rows - 1, old(paint).children)
      ensures Shown() == old(Shown()) && Kept() == old(Kept()) && Control() == old(Control())
    {
      hide Shown, Kept, Control, Text, Separate, SavedRows;
      paint := paint.(start := 0, end := rows - 1);
    }

    // -------------------------------------------------------------- lines

    method BlankRow(cur: bool) returns (row: Row)
      requires 0 <= cols
      ensures fresh(row) && row.cells == BlankLine(cols, if cur then curAttr else DEF_ATTR)
    {
      var attr := if cur then curAttr else DEF_ATTR;
      var ch := Cell(attr, ' ');
      var line := [];
      for i := 0 to cols
        invariant |line| == i && forall k | 0 <= k < i :: line[k] == ch
      {
        line := line + [ch];
      }
      row := new Row(line);
    }

    /** A splice that puts a blank row before row i. */
    method SpliceIn(i: int, cur: bool)
      requires Separate() && 0 <= i <= |lines| && 0 <= cols
      modifies `lines, `owned
      ensures Separate() && fresh(owned - old(owned)) && Kept() == old(Kept()) && Control() == old(Control())
      ensures Shown()
           == old(Shown()).(lines := Insert(old(Shown()).lines, i, BlankLine(cols, if cur then curAttr else DEF_ATTR)))
    {
      hide Apart, Text, Control;
      var row := BlankRow(cur);
      TextInsert(lines, i, row);
      ApartInsert(lines, SavedRows(), owned, i, row);
      lines := Insert(lines, i, row);
      owned := owned + {row};
    }

    /** A splice that cuts row i out. */
    method SpliceOut(i: int)
      requires Separate() && 0 <= i
      modifies `lines
      ensures Separate() && Kept() == old(Kept()) && Control() == old(Control())
      ensures Shown() == old(Shown()).(lines := Remove(old(Shown()).lines, i))
    {
      hide Apart, Text, SavedRows, Kept, Control;
      TextRemove(lines, i);
      ApartRemove(lines, SavedRows(), owned, i);
      lines := Remove(lines, i);
    }

    /** A blank row in the default colours at the end. */
    method PushBlank()
      requires Separate() && 0 <= cols
      modifies `lines, `owned
      ensures Separate() && old(owned) <= owned && fresh(owned - old(owned))
      ensures |lines| == |old(lines)| + 1 && lines[..|lines| - 1] == old(lines) && lines[|lines| - 1] !in old(owned)
      ensures Kept() == old(Kept()) && Control() == old(Control()) && paint == old(paint)
      ensures Shown() == old(Shown()).(lines := old(Shown()).lines + [BlankLine(cols, DEF_ATTR)])
    {
      hide Apart, Text, Control;
      var row := BlankRow(false);
      TextInsert(lines, |lines|, row);
      ApartInsert(lines, SavedRows(), owned, |lines|, row);
      assert Insert(lines, |lines|, row) == lines + [row];
      assert Insert(Text(lines), |lines|, row.cells) == Text(lines) + [row.cells];
      lines := lines + [row];
      owned := owned + {row};
    }

    /** A splice that adds a blank row and then one that cuts out a row. */
    method SpliceInOut(i: int, cur: bool, j: int)
      requires Separate() && 0 <= i <= |lines| && 0 <= j && 0 <= cols
      modifies `lines, `owned
      ensures Separate() && fresh(owned - old(owned))
      ensures Kept() == old(Kept()) && Control() == old(Control()) && paint == old(paint)
      ensures Shown() == old(Shown()).(lines :=
                Remove(Insert(old(Shown()).lines, i, BlankLine(cols, if cur then curAttr else DEF_ATTR)), j))
    {
      hide Separate, Text, Shown, Kept, Control, Insert, Remove, BlankLine;
      SpliceIn(i, cur);
      SpliceOut(j);
    }

    /** A splice that cuts out a row and then one that adds a blank row. */
    method SpliceOutIn(j: int, i: int, cur: bool)
      requires Separate() && 0 <= i < |lines| && 0 <= j < |lines| && 0 <= cols
      modifies `lines, `owned
      ensures Separate() && fresh(owned - old(owned))
      ensures Kept() == old(Kept()) && Control() == old(Control()) && paint == old(paint)
      ensures Shown() == old(Shown()).(lines :=
                Insert(Remove(old(Shown()).lines, j), i, BlankLine(cols, if cur then curAttr else DEF_ATTR)))
    {
      hide Separate, Text, Shown, Kept, Control, Insert, Remove, BlankLine;
      SpliceOut(j);
      SpliceIn(i, cur);
    }

    method UpdateRanges(first: int, last: int)
      modifies `paint
      ensures paint == Touched(Touched(old(paint), first), last)
      ensures Shown() == old(Shown()) && Kept() == old(Kept()) && Control() == old(Control())
    {
      hide Shown, Kept, Control, Text, Separate, SavedRows, Touched;
      UpdateRange(first);
      UpdateRange(last);
    }

    /** `scroll` up to the new line: the base advances, and a full scrollback is cut to half of its limit. */
    method AdvanceBase()
      requires Separate() && env.scrollback >= 2 && 1 <= rows
      requires |lines| == ybase + rows && 0 <= ybase < env.scrollback
      modifies `lines, `ybase
      ensures Separate() && Kept() == old(Kept()) && Control() == old(Control())
      ensures 1 <= ybase <= old(ybase) + 1
      ensures ybase == if old(ybase) + 1 == env.scrollback then env.scrollback / 2 else old(ybase) + 1
      ensures Shown() == old(Shown()).(lines := Last(old(Shown()).lines, ybase + rows - 1), ybase := ybase)
    {
      hide Apart, Text, SavedRows, Kept, Control;
      ybase := ybase + 1;
      if ybase == env.scrollback {
        ybase := ybase / 2;
        var cut := |lines| - (ybase + rows) + 1;
        TextDrop(lines, cut);
        ApartDrop(lines, SavedRows(), owned, cut);
        lines := lines[cut..];
      }
    }

    /** `scroll` with a top margin: the new line did not push a row off the screen after all. */
    method CutRegion()
      requires Separate() && 1 <= ybase && 0 < scrollTop
      modifies `lines, `ybase, `ydisp
      ensures Separate() && Kept() == old(Kept()) && Control() == old(Control())
      ensures Shown() == old(Shown()).(lines := Remove(old(Shown()).lines, old(ybase) - 1 + scrollTop),
                                       ybase := old(ybase) - 1, ydisp := old(ybase) - 1)
    {
      hide Separate, Text, Remove, Kept, Control, SavedRows;
      if ybase != 0 {
        ybase := ybase - 1;
        ydisp := ybase;
      }
      SpliceOut(ybase + scrollTop);
    }

    /** The splices of `scroll`, with the advanced base. */
    method SpliceRegion(ghost b: Buffer)
      requires Separate() && 1 <= cols && 1 <= rows && |b.lines| == b.ybase + rows && 1 <= ybase <= b.ybase + 1
      requires 0 <= scrollTop <= scrollBottom < rows
      requires Shown() == b.(lines := Last(b.lines, ybase + rows - 1), ybase := ybase)
      modifies `lines, `ybase, `ydisp, `owned
      ensures Separate() && fresh(owned - old(owned)) && Kept() == old(Kept()) && Control() == old(Control())
      ensures Shown() == SplicedScroll(b, cols, rows, old(ybase))
    {
      hide Separate, Last, Text, Insert, Remove, BlankLine, Kept, Control, SavedRows;
      ydisp := ybase;
      var row := ybase + rows - 1;
      row := row - (rows - 1 - scrollBottom);
      SpliceIn(row, false);
      if scrollTop != 0 {
        CutRegion();
      }
    }

    /** The lines and the base of `scroll`. */
    method ScrollLines()
      requires Separate() && env.scrollback >= 2 && BufferOk(Shown(), cols, rows, env.scrollback)
      modifies `lines, `ybase, `ydisp, `owned
      ensures Separate() && fresh(owned - old(owned)) && Kept() == old(Kept()) && Control() == old(Control())
      ensures Shown() == Scroll(old(Shown()), cols, rows, env.scrollback)
    {
      hide BufferOk, Scroll, Separate, Last, SplicedScroll, Text, Kept, Control;
      ghost var b := Shown();
      SplicesScroll(b, cols, rows, env.scrollback);
      BufferInside(b, cols, rows, env.scrollback);
      AdvanceBase();
      SpliceRegion(b);
    }
  
    /** `scroll`. */
    method ScrollScreen()
      requires Ok()
      modifies `lines, `ybase, `ydisp, `owned, `paint
      ensures Separate() && fresh(owned - old(owned))
      ensures BufferOk(old(Shown()), cols, rows, env.scrollback) && env.scrollback >= 2
      ensures Abs()
           == Touch(Touch(old(Abs()).(buf := Scroll(old(Shown()), cols, rows, env.scrollback)), scrollTop),
                    scrollBottom)
    {
      hide Writing, BufferOk, Scroll, Separate, Text, Touched, Kept, Shown, Control;
      CursorInside(Abs());
      ScrollLines();
      UpdateRanges(scrollTop, scrollBottom);
    }

    /** The row advance shared by line feeds and wrapping, which is also `index` apart from the parser state. */
    method LineFeed()
      requires Ok()
      modifies `y, `lines, `ybase, `ydisp, `owned, `paint
      ensures Separate() && fresh(owned - old(owned))
      ensures Abs() == IndexLine(old(Abs()))
    {
      hide Writing, BufferOk, Scroll, Separate, Text, Touched, Kept, Control, Shown, IndexLine;
      CursorInside(Abs());
      IndexLineIs(Abs());
      SetRow(y + 1);
      if y > scrollBottom {
        SetRow(y - 1);
        ScrollScreen();
      }
    }

    method SetRow(row: int)
      modifies `y
      ensures y == row && Shown() == old(Shown()).(y := row)
      ensures Kept() == old(Kept()) && Control() == old(Control())
    {
      hide Text, Kept, Control;
      y := row;
    }

    /** Writes through the array of one row; the saved buffer does not see it. */
    method Store(i: int, cells: Line)
      requires Separate() && 0 <= i < |lines|
      modifies lines[i]
      ensures Shown() == old(Shown()).(lines := old(Shown()).lines[i := cells])
      ensures Kept() == old(Kept()) && Control() == old(Control()) && paint == old(paint)
    {
      hide Text, Control;
      ghost var saved := SavedRows();
      assert forall r | r in saved :: r != lines[i];
      lines[i].cells := cells;
      assert Text(lines) == old(Text(lines))[i := cells];
      assert SavedRows() == saved;
      assert Text(saved) == old(Text(saved)) by {
        forall k | 0 <= k < |saved|
          ensures Text(saved)[k] == old(Text(saved))[k]
        {
          assert saved[k] in saved;
        }
      }
    }

    /** A write to a row that has been written to before. */
    method Rewrite(ghost b: Buffer, y: int, ghost line: Line, cells: Line)
      requires Separate() && b.ybase == ybase && 0 <= ybase + y < |lines|
      requires |b.lines| == |lines| && Shown() == WithRow(b, y, line)
      modifies lines[ybase + y]
      ensures Shown() == WithRow(b, y, cells)
      ensures Kept() == old(Kept()) && Control() == old(Control()) && paint == old(paint)
    {
      hide Separate, Text, Kept, Control;
      Store(ybase + y, cells);
      assert b.lines[ybase + y := line][ybase + y := cells] == b.lines[ybase + y := cells];
    }

    /** Puts a cell at the cursor and moves the cursor on. */
    method PutNext(c: Cell)
      requires Separate() && 0 <= ybase + y < |lines| && 0 <= x <= |VisibleLine(Shown(), Shown().y)|
      modifies lines[ybase + y], `x
      ensures Shown() == CellPut(old(Shown()), c)
      ensures Kept() == old(Kept()) && Control() == old(Control()) && paint == old(paint)
      ensures x == old(x) + 1
    {
      hide Separate, Text, Kept, Control, SetCell;
      Store(ybase + y, SetCell(lines[ybase + y].cells, x, c));
      x := x + 1;
    }

    // -------------------------------------------------------------- erasing

    method EraseRight(x: int, y: int)
      requires Separate() && 0 <= ybase + y < |lines| && 0 <= x <= |lines[ybase + y].cells|
      modifies lines[ybase + y], `paint
      ensures var b := old(Shown());
              Shown() == WithRow(b, y, Fill(VisibleLine(b, y), x, Max(x, cols), Blank(curAttr)))
      ensures paint == Touched(old(paint), y) && Kept() == old(Kept()) && Control() == old(Control())
    {
      hide Separate, Text, Kept, Control, Fill, Touched;
      var ch := Cell(curAttr, ' ');
      var row := ybase + y;
      ghost var b := Shown();
      ghost var line := VisibleLine(b, y);
      FillNothing(b, y, x, ch);
      var i := x;
      while i < cols
        invariant x <= i <= Max(x, cols)
        invariant Shown() == WithRow(b, y, Fill(line, x, i, ch))
        invariant Kept() == old(Kept()) && Control() == old(Control()) && paint == old(paint)
        decreases cols - i
      {
        FillOneMore(b, y, line, x, i, ch);
        i := i + 1;
      }
      UpdateRange(y);
    }
  
    method EraseLeft(x: int, y: int)
      requires Separate() && 0 <= ybase + y < |lines| && 0 <= x <= |lines[ybase + y].cells|
      modifies lines[ybase + y], `paint
      ensures var b := old(Shown());
              Shown() == WithRow(b, y, Fill(VisibleLine(b, y), 0, x + 1, Blank(curAttr)))
      ensures paint == Touched(old(paint), y) && Kept() == old(Kept()) && Control() == old(Control())
    {
      hide Separate, Text, Kept, Control, Touched;
      var ch := Cell(curAttr, ' ');
      var row := ybase + y;
      ghost var b := Shown();
      ghost var line := VisibleLine(b, y);
      // x++; while (x--): the first write may append
      Store(row, SetCell(lines[row].cells, x, ch));
      assert SetCell(line, x, ch) == Fill(line, x, x + 1, ch);
      var i := x;
      while i > 0
        invariant 0 <= i <= x
        invariant Shown() == WithRow(b, y, Fill(line, i, x + 1, ch))
        invariant Kept() == old(Kept()) && Control() == old(Control()) && paint == old(paint)
      {
        i := i - 1;
        assert SetCell(Fill(line, i + 1, x + 1, ch), i, ch) == Fill(line, i, x + 1, ch);
        Store(row, SetCell(lines[row].cells, i, ch));
      }
      UpdateRange(y);
    }

    method EraseLine(y: int)
      requires Separate() && 0 <= cols && 0 <= ybase + y < |lines|
      modifies lines[ybase + y], `paint
      ensures var b := old(Shown());
              Shown() == WithRow(b, y, Fill(VisibleLine(b, y), 0, cols, Blank(curAttr)))
      ensures paint == Touched(old(paint), y) && Kept() == old(Kept()) && Control() == old(Control())
    {
      EraseRight(0, y);
    }

    /** Erases the rows from lo down to the last one. */
    method EraseBelow(lo: int)
      requires Separate() && 0 <= cols && 0 <= ybase && |lines| == ybase + rows && 0 <= lo <= rows
      modifies lines, `paint
      ensures Shown() == EraseRows(old(Shown()), lo, rows, cols, Blank(curAttr))
      ensures paint == TouchedRows(old(paint), lo, rows)
      ensures Kept() == old(Kept()) && Control() == old(Control())
    {
      hide Separate, Text, Kept, Control, Fill, Shown, EraseRows;
      ghost var b, c := Shown(), Blank(curAttr);
      EraseNothing(b, lo, cols, c);
      var j := lo;
      while j < rows
        invariant lo <= j <= rows
        invariant Shown() == EraseRows(b, lo, j, cols, c)
        invariant paint == TouchedRows(old(paint), lo, j)
        invariant Kept() == old(Kept()) && Control() == old(Control())
      {
        EraseMore(b, lo, j, cols, c);
        EraseLine(j);
        j := j + 1;
      }
    }

    /** Erases the rows above hi, from the last of them up. */
    method EraseAbove(hi: int)
      requires Separate() && 0 <= cols && 0 <= ybase && |lines| == ybase + rows && 0 <= hi <= rows
      modifies lines, `paint
      ensures Shown() == EraseRows(old(Shown()), 0, hi, cols, Blank(curAttr))
      ensures paint == TouchedRows(old(paint), 0, hi)
      ensures Kept() == old(Kept()) && Control() == old(Control())
    {
      hide Separate, Text, Kept, Control, Fill, Shown, EraseRows;
      ghost var b, c := Shown(), Blank(curAttr);
      EraseNothing(b, hi, cols, c);
      var j := hi;
      while j > 0
        invariant 0 <= j <= hi
        invariant Shown() == EraseRows(b, j, hi, cols, c)
        invariant paint == TouchedRows(old(paint), j, hi)
        invariant Kept() == old(Kept()) && Control() == old(Control())
      {
        j := j - 1;
        EraseMoreAbove(b, j, hi, cols, c);
        EraseLine(j);
      }
    }

    /** ED 0. */
    method EraseToEnd()
      requires Ok()
      modifies lines, `paint
      ensures BufferOk(old(Shown()), cols, rows, env.scrollback)
      ensures Shown() == Screen.EraseInDisplay(old(Shown()), cols, rows, env.scrollback, Blank(curAttr), 0)
      ensures paint == Touched(Touched(old(paint), y), rows - 1) && Kept() == old(Kept()) && Control() == old(Control())
    {
      hide Writing, BufferOk, Separate, Text, Kept, Control, Shown, Fill, EraseRows, Touched, TouchedRows,
        Screen.EraseInDisplay, WithRow;
      CursorInside(Abs());
      CursorRowInside(Abs());
      BufferInside(Shown(), cols, rows, env.scrollback);
      PartErasures(Shown(), cols, rows, env.scrollback, Blank(curAttr));
      TouchedParts(paint, y, rows);
      RowWritten(Shown(), y, Fill(VisibleLine(Shown(), y), x, Max(x, cols), Blank(curAttr)));
      EraseRight(x, y);
      EraseBelow(y + 1);
    }

    /** ED 1. */
    method EraseToStart()
      requires Ok()
      modifies lines, `paint
      ensures BufferOk(old(Shown()), cols, rows, env.scrollback)
      ensures Shown() == Screen.EraseInDisplay(old(Shown()), cols, rows, env.scrollback, Blank(curAttr), 1)
      ensures paint == Touched(Touched(old(paint), 0), y) && Kept() == old(Kept()) && Control() == old(Control())
    {
      hide Writing, BufferOk, Separate, Text, Kept, Control, Shown, Fill, EraseRows, Touched, TouchedRows,
        Screen.EraseInDisplay, WithRow;
      CursorInside(Abs());
      CursorRowInside(Abs());
      BufferInside(Shown(), cols, rows, env.scrollback);
      PartErasures(Shown(), cols, rows, env.scrollback, Blank(curAttr));
      TouchedParts(paint, y, rows);
      RowWritten(Shown(), y, Fill(VisibleLine(Shown(), y), 0, x + 1, Blank(curAttr)));
      EraseLeft(x, y);
      EraseAbove(y);
    }

    /** ED. */
    method EraseInDisplay(ps: seq<nat>)
      requires Ok() && |ps| > 0
      modifies lines, `paint
      ensures Abs() == Edit(old(Abs()), 'J', ps)
    {
      hide Writing, BufferOk, Separate, Text, Kept, Control, Shown, Edit, Screen.EraseInDisplay, Touched;
      CursorInside(Abs());
      DisplayEdits(Abs(), ps);
      if ps[0] == 0 {
        EraseToEnd();
      } else if ps[0] == 1 {
        EraseToStart();
      } else if ps[0] == 2 {
        EraseAll();
      }
    }

    /** ED 2. */
    method EraseAll()
      requires Ok()
      modifies lines, `paint
      ensures BufferOk(old(Shown()), cols, rows, env.scrollback)
      ensures Shown() == Screen.EraseInDisplay(old(Shown()), cols, rows, env.scrollback, Blank(curAttr), 2)
      ensures paint == Touched(Touched(old(paint), 0), rows - 1) && Kept() == old(Kept()) && Control() == old(Control())
    {
      hide Writing, BufferOk, Separate, Text, Kept, Control, Shown, EraseRows, Screen.EraseInDisplay, Touched,
        TouchedRows;
      CursorInside(Abs());
      BufferInside(Shown(), cols, rows, env.scrollback);
      DisplayErasures(Shown(), cols, rows, env.scrollback, Blank(curAttr), 2);
      TouchedParts(paint, 0, rows);
      EraseAbove(rows);
    }

    /** EL. */
    method EraseInLine(ps: seq<nat>)
      requires Ok() && |ps| > 0
      modifies lines, `paint
      ensures Abs() == Edit(old(Abs()), 'K', ps)
    {
      hide Writing, BufferOk, Separate, Text, Kept, Control, Shown, Fill, EraseRows;
      CursorInside(Abs());
      CursorRowInside(Abs());
      BufferInside(Shown(), cols, rows, env.scrollback);
      ghost var b := Shown();
      if ps[0] == 0 {
        EraseRight(x, y);
      } else if ps[0] == 1 {
        EraseLeft(x, y);
      } else if ps[0] == 2 {
        EraseNothing(b, y, cols, Blank(curAttr));
        EraseMore(b, y, y, cols, Blank(curAttr));
        EraseLine(y);
      }
    }

    // -------------------------------------------------------------- shifting lines

    /** IL. */
    method InsertLines(ps: seq<nat>)
      requires Separate() && BufferOk(Shown(), cols, rows, env.scrollback) && |ps| > 0
      modifies `lines, `owned, `paint
      ensures Separate() && fresh(owned - old(owned))
      ensures Shown() == Screen.InsertLines(old(Shown()), cols, rows, env.scrollback, curAttr, Count(ps))
      ensures paint == Touched(Touched(old(paint), y), scrollBottom)
      ensures Kept() == old(Kept()) && Control() == old(Control())
    {
      hide BufferOk, Separate, Text, Shown, Kept, Control, Screen.InsertLines, Insert, Remove, BlankLine, Touched;
      ghost var b := Shown();
      BufferInside(b, cols, rows, env.scrollback);
      var param := ps[0];
      if param < 1 {
        param := 1;
      }
      var row := y + ybase;
      var j := rows - 1 - scrollBottom;
      j := rows - 1 + ybase - j + 1;
      InsertLinesRound(b, cols, rows, env.scrollback, curAttr, 0);
      while param > 0
        invariant 0 <= param <= Count(ps)
        invariant Separate() && fresh(owned - old(owned))
        invariant Shown() == Screen.InsertLines(b, cols, rows, env.scrollback, curAttr, Count(ps) - param)
        invariant Kept() == old(Kept()) && Control() == old(Control()) && paint == old(paint)
      {
        InsertLinesRound(b, cols, rows, env.scrollback, curAttr, Count(ps) - param);
        SpliceInOut(row, true, j);
        param := param - 1;
      }
      UpdateRanges(y, scrollBottom);
    }

    /** DL. */
    method DeleteLines(ps: seq<nat>)
      requires Separate() && BufferOk(Shown(), cols, rows, env.scrollback) && |ps| > 0
      modifies `lines, `owned, `paint
      ensures Separate() && fresh(owned - old(owned))
      ensures Shown() == Screen.DeleteLines(old(Shown()), cols, rows, env.scrollback, curAttr, Count(ps))
      ensures paint == Touched(Touched(old(paint), y), scrollBottom)
      ensures Kept() == old(Kept()) && Control() == old(Control())
    {
      hide BufferOk, Separate, Text, Shown, Kept, Control, Screen.DeleteLines, Insert, Remove, BlankLine, Touched;
      ghost var b := Shown();
      BufferInside(b, cols, rows, env.scrollback);
      var param := ps[0];
      if param < 1 {
        param := 1;
      }
      var row := y + ybase;
      var j := rows - 1 - scrollBottom;
      j := rows - 1 + ybase - j;
      DeleteLinesRound(b, cols, rows, env.scrollback, curAttr, 0);
      while param > 0
        invariant 0 <= param <= Count(ps)
        invariant Separate() && fresh(owned - old(owned))
        invariant Shown() == Screen.DeleteLines(b, cols, rows, env.scrollback, curAttr, Count(ps) - param)
        invariant Kept() == old(Kept()) && Control() == old(Control()) && paint == old(paint)
      {
        DeleteLinesRound(b, cols, rows, env.scrollback, curAttr, Count(ps) - param);
        SpliceInOut(j + 1, true, row);
        param := param - 1;
      }
      UpdateRanges(y, scrollBottom);
    }

    method ScrollUpOnce(ghost b: Buffer, ghost n: nat)
      requires Separate() && BufferOk(b, cols, rows, env.scrollback)
      requires Shown() == Screen.ScrollUp(b, cols, rows, env.scrollback, n)
      modifies `lines, `owned
      ensures Separate() && fresh(owned - old(owned))
      ensures Shown() == Screen.ScrollUp(b, cols, rows, env.scrollback, n + 1)
      ensures Kept() == old(Kept()) && Control() == old(Control()) && paint == old(paint)
    {
      hide BufferOk, Separate, Text, Shown, Kept, Control, ShiftUp, ShiftDown, Insert, Remove, BlankLine;
      BufferInside(b, cols, rows, env.scrollback);
      ScrollRound(b, cols, rows, env.scrollback, n);
      SpliceOutIn(ybase + scrollTop, ybase + scrollBottom, false);
    }

    /** SU. */
    method ScrollUp(ps: seq<nat>)
      requires Separate() && BufferOk(Shown(), cols, rows, env.scrollback) && |ps| > 0
      modifies `lines, `owned, `paint
      ensures Separate() && fresh(owned - old(owned))
      ensures Shown() == Screen.ScrollUp(old(Shown()), cols, rows, env.scrollback, Count(ps))
      ensures paint == Touched(Touched(old(paint), scrollTop), scrollBottom)
      ensures Kept() == old(Kept()) && Control() == old(Control())
    {
      hide BufferOk, Separate, Text, Shown, Kept, Control, Screen.ScrollUp, Insert, Remove, BlankLine, Touched;
      ghost var b := Shown();
      BufferInside(b, cols, rows, env.scrollback);
      var param := if ps[0] == 0 then 1 else ps[0];
      ScrollRound(b, cols, rows, env.scrollback, 0);
      while param > 0
        invariant 0 <= param <= Count(ps)
        invariant Separate() && fresh(owned - old(owned))
        invariant Shown() == Screen.ScrollUp(b, cols, rows, env.scrollback, Count(ps) - param)
        invariant Kept() == old(Kept()) && Control() == old(Control()) && paint == old(paint)
      {
        ScrollUpOnce(b, Count(ps) - param);
        param := param - 1;
      }
      UpdateRanges(scrollTop, scrollBottom);
    }

    method ScrollDownOnce(ghost b: Buffer, ghost n: nat)
      requires Separate() && BufferOk(b, cols, rows, env.scrollback)
      requires Shown() == Screen.ScrollDown(b, cols, rows, env.scrollback, n)
      modifies `lines, `owned
      ensures Separate() && fresh(owned - old(owned))
      ensures Shown() == Screen.ScrollDown(b, cols, rows, env.scrollback, n + 1)
      ensures Kept() == old(Kept()) && Control() == old(Control()) && paint == old(paint)
    {
      hide BufferOk, Separate, Text, Shown, Kept, Control, ShiftUp, ShiftDown, Insert, Remove, BlankLine;
      BufferInside(b, cols, rows, env.scrollback);
      ScrollRound(b, cols, rows, env.scrollback, n);
      SpliceOutIn(ybase + scrollBottom, ybase + scrollTop, false);
    }

    /** SD. */
    method ScrollDown(ps: seq<nat>)
      requires Separate() && BufferOk(Shown(), cols, rows, env.scrollback) && |ps| > 0
      modifies `lines, `owned, `paint
      ensures Separate() && fresh(owned - old(owned))
      ensures Shown() == Screen.ScrollDown(old(Shown()), cols, rows, env.scrollback, Count(ps))
      ensures paint == Touched(Touched(old(paint), scrollTop), scrollBottom)
      ensures Kept() == old(Kept()) && Control() == old(Control())
    {
      hide BufferOk, Separate, Text, Shown, Kept, Control, Screen.ScrollDown, Insert, Remove, BlankLine, Touched;
      ghost var b := Shown();
      BufferInside(b, cols, rows, env.scrollback);
      var param := if ps[0] == 0 then 1 else ps[0];
      ScrollRound(b, cols, rows, env.scrollback, 0);
      while param > 0
        invariant 0 <= param <= Count(ps)
        invariant Separate() && fresh(owned - old(owned))
        invariant Shown() == Screen.ScrollDown(b, cols, rows, env.scrollback, Count(ps) - param)
        invariant Kept() == old(Kept()) && Control() == old(Control()) && paint == old(paint)
      {
        ScrollDownOnce(b, Count(ps) - param);
        param := param - 1;
      }
      UpdateRanges(scrollTop, scrollBottom);
    }

    /** RI, apart from the parser state. */
    method ReverseLineFeed()
      requires Separate() && BufferOk(Shown(), cols, rows, env.scrollback)
      modifies `y, `lines, `owned, `paint
      ensures Separate() && fresh(owned - old(owned))
      ensures Shown() == ReverseIndex(old(Shown()), cols, rows, env.scrollback, curAttr)
      ensures paint
           == if old(y) - 1 < scrollTop then Touched(Touched(old(paint), scrollTop), scrollBottom) else old(paint)
      ensures Kept() == old(Kept()) && Control() == old(Control())
    {
      hide BufferOk, Separate, Text, Shown, Kept, Control, Screen.InsertLines, Insert, Remove, BlankLine, Touched;
      ghost var b := Shown();
      BufferInside(b, cols, rows, env.scrollback);
      SetRow(y - 1);
      if y < scrollTop {
        SetRow(y + 1);
        ReverseRound(b, cols, rows, env.scrollback, curAttr);
        InsertLinesRound(b, cols, rows, env.scrollback, curAttr, 0);
        var j := rows - 1 - scrollBottom;
        SpliceInOut(y + ybase, true, rows - 1 + ybase - j + 1);
        UpdateRanges(scrollTop, scrollBottom);
      }
    }

    // -------------------------------------------------------------- editing characters

    /** ICH. */
    method InsertChars(ps: seq<nat>)
      requires Separate() && BufferOk(Shown(), cols, rows, env.scrollback) && |ps| > 0
      modifies lines
      ensures Shown() == Screen.InsertChars(old(Shown()), cols, rows, env.scrollback, Blank(curAttr), Count(ps))
      ensures paint == old(paint) && Kept() == old(Kept()) && Control() == old(Control())
    {
      hide BufferOk, Separate, Text, Shown, Kept, Control, Insert, ShiftDown;
      ghost var b := Shown();
      BufferInside(b, cols, rows, env.scrollback);
      CursorLineInside(b, cols, rows, env.scrollback);
      var param := ps[0];
      if param < 1 {
        param := 1;
      }
      var j := x;
      var ch := Cell(curAttr, ' ');
      ghost var line := VisibleLine(b, y);
      ShiftNothing(line, x, |line|, ch);
      SameRow(b, y);
      while param > 0 && j < cols
        invariant x <= j <= cols && param == Count(ps) - (j - x) >= 0
        invariant Shown() == WithRow(b, y, ShiftDown(line, x, |line|, j - x, ch))
        invariant Kept() == old(Kept()) && Control() == old(Control()) && paint == old(paint)
      {
        InsertChar(b, line, j, ch);
        j := j + 1;
        param := param - 1;
      }
    }

    /** One more round of ICH on a line that has seen j - x: a blank comes at column j, the last cell goes. */
    method InsertChar(ghost b: Buffer, ghost line: Line, j: int, ch: Cell)
      requires Separate() && 0 <= ybase + y < |lines| == |b.lines| && b.ybase == ybase && 0 <= x <= j < |line|
      requires Shown() == WithRow(b, y, ShiftDown(line, x, |line|, j - x, ch))
      modifies lines[ybase + y]
      ensures Shown() == WithRow(b, y, ShiftDown(line, x, |line|, j + 1 - x, ch))
      ensures Kept() == old(Kept()) && Control() == old(Control()) && paint == old(paint)
    {
      hide Separate, Text, Shown, Kept, Control, Insert, ShiftDown, WithRow;
      InsertCharsRound(line, x, j - x, ch);
      ghost var was := ShiftDown(line, x, |line|, j - x, ch);
      RowWritten(b, y, was);
      var grown := Insert(lines[ybase + y].cells, j, ch);
      Rewrite(b, y, was, grown[..|grown| - 1]);
    }

    /** DCH. */
    method DeleteChars(ps: seq<nat>)
      requires Separate() && BufferOk(Shown(), cols, rows, env.scrollback) && |ps| > 0
      modifies lines
      ensures Shown() == Screen.DeleteChars(old(Shown()), cols, rows, env.scrollback, Blank(curAttr), Count(ps))
      ensures paint == old(paint) && Kept() == old(Kept()) && Control() == old(Control())
    {
      hide BufferOk, Separate, Text, Shown, Kept, Control, ShiftUp, Shortened, WithRow;
      ghost var b := Shown();
      BufferInside(b, cols, rows, env.scrollback);
      CursorLineInside(b, cols, rows, env.scrollback);
      var param := ps[0];
      if param < 1 {
        param := 1;
      }
      var ch := Cell(curAttr, ' ');
      ghost var line := VisibleLine(b, y);
      ShortenedLine(b, cols, rows, env.scrollback, ch, Count(ps));
      while param > 0
        invariant 0 <= param <= Count(ps)
        invariant Shown() == WithRow(b, y, Shortened(line, x, Count(ps) - param, ch))
        invariant Kept() == old(Kept()) && Control() == old(Control()) && paint == old(paint)
      {
        DeleteChar(b, line, Count(ps) - param, ch);
        param := param - 1;
      }
    }

    /** One more round of DCH on a line that has seen n: the cursor's cell goes, a blank comes at the end. */
    method DeleteChar(ghost b: Buffer, ghost line: Line, ghost n: nat, ch: Cell)
      requires Separate() && 0 <= ybase + y < |lines| == |b.lines| && b.ybase == ybase && 0 <= x <= |line|
      requires Shown() == WithRow(b, y, Shortened(line, x, n, ch))
      modifies lines[ybase + y]
      ensures Shown() == WithRow(b, y, Shortened(line, x, n + 1, ch))
      ensures Kept() == old(Kept()) && Control() == old(Control()) && paint == old(paint)
    {
      hide Separate, Text, Shown, Kept, Control, Remove, Shortened, WithRow;
      DeleteCharsRound(line, x, n, ch);
      ghost var was := Shortened(line, x, n, ch);
      RowWritten(b, y, was);
      var row := ybase + y;
      Rewrite(b, y, was, Remove(lines[row].cells, x) + [ch]);
    }

    /** ECH. */
    method EraseChars(ps: seq<nat>)
      requires Separate() && BufferOk(Shown(), cols, rows, env.scrollback) && |ps| > 0
      modifies lines
      ensures Shown() == Screen.EraseChars(old(Shown()), cols, rows, env.scrollback, Blank(curAttr), Count(ps))
      ensures paint == old(paint) && Kept() == old(Kept()) && Control() == old(Control())
    {
      hide BufferOk, Separate, Text, Shown, Kept, Control, Fill, WithRow;
      ghost var b := Shown();
      BufferInside(b, cols, rows, env.scrollback);
      CursorLineInside(b, cols, rows, env.scrollback);
      var param := ps[0];
      if param < 1 {
        param := 1;
      }
      var j := x;
      var ch := Cell(curAttr, ' ');
      ghost var line := VisibleLine(b, y);
      FillNothing(b, y, x, ch);
      while param > 0 && j < cols
        invariant x <= j <= cols && param == Count(ps) - (j - x) >= 0
        invariant Shown() == WithRow(b, y, Fill(line, x, j, ch))
        invariant Kept() == old(Kept()) && Control() == old(Control()) && paint == old(paint)
      {
        FillOneMore(b, y, line, x, j, ch);
        j := j + 1;
        param := param - 1;
      }
    }

    /** Writes one more cell after columns lo to j - 1 of a row have been filled. */
    method FillOneMore(ghost b: Buffer, k: int, ghost line: Line, lo: int, j: int, ch: Cell)
      requires Separate() && 0 <= ybase + k < |lines| == |b.lines| && b.ybase == ybase && 0 <= lo <= j && lo <= |line|
      requires j <= |Fill(line, lo, j, ch)| && Shown() == WithRow(b, k, Fill(line, lo, j, ch))
      modifies lines[ybase + k]
      ensures Shown() == WithRow(b, k, Fill(line, lo, j + 1, ch))
      ensures Kept() == old(Kept()) && Control() == old(Control()) && paint == old(paint)
    {
      hide Separate, Text, Shown, Kept, Control, Fill, SetCell, WithRow;
      FillMore(line, lo, j, ch);
      ghost var was := Fill(line, lo, j, ch);
      RowWritten(b, k, was);
      Rewrite(b, k, was, SetCell(lines[ybase + k].cells, j, ch));
    }

    /** The cell left of the cursor, or a default blank where there is none. */
    function PrecedingCell(): (c: Cell)
      requires 0 <= ybase + y < |lines| && 0 <= x <= |VisibleLine(Shown(), Shown().y)|
      reads this, lines`cells
      ensures c == if x > 0 then VisibleLine(Shown(), Shown().y)[x - 1] else Blank(DEF_ATTR)
    {
      var line := lines[ybase + y].cells;
      if 0 <= x - 1 < |line| then line[x - 1] else Cell(DEF_ATTR, ' ')
    }

    /** REP. */
    method RepeatPrecedingCharacter(ps: seq<nat>)
      requires Separate() && BufferOk(Shown(), cols, rows, env.scrollback) && |ps| > 0
      modifies lines, `x
      ensures Shown() == RepeatChar(old(Shown()), cols, rows, env.scrollback, Count(ps))
      ensures paint == old(paint) && Kept() == old(Kept()) && Control() == old(Control())
    {
      hide BufferOk, Separate, Text, Shown, Kept, Control, Repeated, CellPut, RepeatChar, PrecedingCell, VisibleLine;
      ghost var b := Shown();
      BufferInside(b, cols, rows, env.scrollback);
      CursorLineInside(b, cols, rows, env.scrollback);
      var param := if ps[0] == 0 then 1 else ps[0];
      var ch := PrecedingCell();
      RepeatedMore(b, ch, 0);
      while param > 0
        invariant 0 <= param <= Count(ps)
        invariant Shown() == Repeated(b, ch, Count(ps) - param)
        invariant Kept() == old(Kept()) && Control() == old(Control()) && paint == old(paint)
      {
        PutRepeated(b, ch, Count(ps) - param);
        param := param - 1;
      }
      RepeatsChar(b, cols, rows, env.scrollback, ch, Count(ps));
    }

    method PutRepeated(ghost b: Buffer, c: Cell, ghost k: nat)
      requires 0 <= b.ybase + b.y < |b.lines| && 0 <= b.x <= |VisibleLine(b, b.y)|
      requires Separate() && Shown() == Repeated(b, c, k)
      modifies lines[ybase + y], `x
      ensures Shown() == Repeated(b, c, k + 1)
      ensures Kept() == old(Kept()) && Control() == old(Control()) && paint == old(paint)
    {
      hide Separate, Text, Shown, Kept, Control, Repeated, CellPut;
      RepeatedMore(b, c, k);
      PutNext(c);
    }

    // -------------------------------------------------------------- tab stops

    method FindNextStop(from: int) returns (r: int)
      requires 0 <= from <= cols && 1 <= cols
      ensures r == NextStop(tabs, cols, from)
    {
      var i := from + 1;
      while i !in tabs && i < cols
        invariant from < i <= cols + 1
        invariant i <= cols ==> NextStop(tabs, cols, from) == NextStop(tabs, cols, i - 1)
        invariant i > cols ==> from == cols
        decreases cols - i
      {
        i := i + 1;
      }
      r := if i >= cols then cols - 1 else if i < 0 then 0 else i;
    }

    method FindPrevStop(from: int) returns (r: int)
      requires 0 <= from <= cols && 1 <= cols
      ensures r == PrevStop(tabs, from)
    {
      var i := from - 1;
      while i !in tabs && i > 0
        invariant -1 <= i < from && (i == -1 ==> from == 0)
        invariant PrevStop(tabs, from) == PrevStop(tabs, i + 1)
      {
        i := i - 1;
      }
      r := if i >= cols then cols - 1 else if i < 0 then 0 else i;
    }

    method SetupStops(from: Option<int>)
      requires 1 <= cols && (from.Some? ==> from.value == cols)
      modifies `tabs
      ensures tabs == if from.None? then StopsFrom(0, cols) else StopsAfterResize(old(tabs), cols)
    {
      hide StopsFrom, EveryEighth, PrevStop;
      var i := 0;
      if from.Some? {
        i := from.value;
        if i !in tabs {
          i := FindPrevStop(i);
        }
      } else {
        tabs := {};
      }
      ghost var start, before := i, tabs;
      NoStops(start);
      while i < cols
        invariant start <= i && EveryEighth(start, i) && (i == start || i - 8 < cols)
        invariant tabs == before + StopsFrom(start, i)
        decreases cols - i
      {
        StopsMore(start, i);
        tabs := tabs + {i};
        i := i + 8;
      }
      StopsEnd(start, i, cols);
    }

    // -------------------------------------------------------------- moving the cursor

    /** CUU. */
    method CursorUp(ps: seq<nat>)
      requires CursorOk() && |ps| > 0
      modifies `y
      ensures y == Max(0, old(y) - Count(ps))
    {
      var param := ps[0];
      if param < 1 {
        param := 1;
      }
      y := y - param;
      if y < 0 {
        y := 0;
      }
    }

    /** CUD. */
    method CursorDown(ps: seq<nat>)
      requires CursorOk() && |ps| > 0
      modifies `y
      ensures y == Min(old(y) + Count(ps), rows - 1)
    {
      var param := ps[0];
      if param < 1 {
        param := 1;
      }
      y := y + param;
      if y >= rows {
        y := rows - 1;
      }
    }

    /** CUF. */
    method CursorForward(ps: seq<nat>)
      requires CursorOk() && |ps| > 0
      modifies `x
      ensures x == Min(old(x) + Count(ps), cols - 1)
    {
      var param := ps[0];
      if param < 1 {
        param := 1;
      }
      x := x + param;
      if x >= cols {
        x := cols - 1;
      }
    }

    /** CUB. */
    method CursorBackward(ps: seq<nat>)
      requires CursorOk() && |ps| > 0
      modifies `x
      ensures x == Max(0, old(x) - Count(ps))
    {
      var param := ps[0];
      if param < 1 {
        param := 1;
      }
      x := x - param;
      if x < 0 {
        x := 0;
      }
    }

    /** CNL. */
    method CursorNextLine(ps: seq<nat>)
      requires CursorOk() && |ps| > 0
      modifies `x, `y
      ensures x == 0 && y == Min(old(y) + Count(ps), rows - 1)
    {
      var param := ps[0];
      if param < 1 {
        param := 1;
      }
      y := y + param;
      if y >= rows {
        y := rows - 1;
      }
      x := 0;
    }

    /** CPL. */
    method CursorPrecedingLine(ps: seq<nat>)
      requires CursorOk() && |ps| > 0
      modifies `x, `y
      ensures x == 0 && y == Max(0, old(y) - Count(ps))
    {
      var param := ps[0];
      if param < 1 {
        param := 1;
      }
      y := y - param;
      if y < 0 {
        y := 0;
      }
      x := 0;
    }

    /** CHA, which does not clamp. */
    method CursorCharAbsolute(ps: seq<nat>)
      requires CursorOk() && |ps| > 0
      modifies `x
      ensures x == Count(ps) - 1
    {
      var param := ps[0];
      if param < 1 {
        param := 1;
      }
      x := param - 1;
    }

    /** CUP. */
    method CursorPos(ps: seq<nat>)
      requires CursorOk() && |ps| > 0
      modifies `x, `y
      ensures y == Min(Count(ps) - 1, rows - 1)
      ensures x == if |ps| >= 2 then Min(Max(1, ps[1]) - 1, cols - 1) else 0
    {
      var row := ps[0] as int - 1;
      var col: int := 0;
      if |ps| >= 2 {
        col := ps[1] as int - 1;
      }
      if row < 0 {
        row := 0;
      } else if row >= rows {
        row := rows - 1;
      }
      if col < 0 {
        col := 0;
      } else if col >= cols {
        col := cols - 1;
      }
      x := col;
      y := row;
    }

    /** HPA. */
    method CharPosAbsolute(ps: seq<nat>)
      requires CursorOk() && |ps| > 0
      modifies `x
      ensures x == Min(Count(ps) - 1, cols - 1)
    {
      var param := ps[0];
      if param < 1 {
        param := 1;
      }
      x := param - 1;
      if x >= cols {
        x := cols - 1;
      }
    }

    /** HPR. */
    method HPositionRelative(ps: seq<nat>)
      requires CursorOk() && |ps| > 0
      modifies `x
      ensures x == Min(old(x) + Count(ps), cols - 1)
    {
      var param := ps[0];
      if param < 1 {
        param := 1;
      }
      x := x + param;
      if x >= cols {
        x := cols - 1;
      }
    }

    /** VPA. */
    method LinePosAbsolute(ps: seq<nat>)
      requires CursorOk() && |ps| > 0
      modifies `y
      ensures y == Min(Count(ps) - 1, rows - 1)
    {
      var param := ps[0];
      if param < 1 {
        param := 1;
      }
      y := param - 1;
      if y >= rows {
        y := rows - 1;
      }
    }

    /** VPR. */
    method VPositionRelative(ps: seq<nat>)
      requires CursorOk() && |ps| > 0
      modifies `y
      ensures y == Min(old(y) + Count(ps), rows - 1)
    {
      var param := ps[0];
      if param < 1 {
        param := 1;
      }
      y := y + param;
      if y >= rows {
        y := rows - 1;
      }
    }

    /** HVP; without a second parameter the column is no number. */
    method HVPosition(ps: seq<nat>)
      requires CursorOk() && |ps| > 0
      modifies `x, `y
      ensures y == Min(Count(ps) - 1, rows - 1)
      ensures x == if |ps| >= 2 then Min(Max(1, ps[1]) - 1, cols - 1) else NAN_COLUMN
    {
      var row := if ps[0] < 1 then 1 else ps[0];
      y := row - 1;
      if y >= rows {
        y := rows - 1;
      }
      if |ps| < 2 {
        x := NAN_COLUMN;
      } else {
        var col := if ps[1] < 1 then 1 else ps[1];
        x := col - 1;
        if x >= cols {
          x := cols - 1;
        }
      }
    }

    /** Restore cursor, which does not clamp. */
    method RestoreCursor(ps: seq<nat>)
      requires CursorOk() && |ps| > 0
      modifies `x, `y
      ensures x == savedX && y == savedY
    {
      x := savedX;
      y := savedY;
    }

    /** CHT. */
    method CursorForwardTab(ps: seq<nat>)
      requires CursorOk() && |ps| > 0
      modifies `x
      ensures x == ForwardTabs(tabs, cols, old(x), Count(ps))
    {
      var param := if ps[0] == 0 then 1 else ps[0];
      while param > 0
        invariant 0 <= param && 0 <= x <= cols
        invariant ForwardTabs(tabs, cols, x, param) == ForwardTabs(tabs, cols, old(x), Count(ps))
      {
        NextStopIsLeast(tabs, cols, x);
        x := FindNextStop(x);
        param := param - 1;
      }
    }

    /** CBT. */
    method CursorBackwardTab(ps: seq<nat>)
      requires CursorOk() && |ps| > 0
      modifies `x
      ensures x == BackTabs(tabs, old(x), Count(ps))
    {
      var param := if ps[0] == 0 then 1 else ps[0];
      while param > 0
        invariant 0 <= param && 0 <= x <= cols
        invariant BackTabs(tabs, x, param) == BackTabs(tabs, old(x), Count(ps))
      {
        PrevStopIsGreatest(tabs, x);
        x := FindPrevStop(x);
        param := param - 1;
      }
    }

    /** The switch of `write` for the commands that move the cursor. */
    method MoveCursor(f: char, ps: seq<nat>)
      requires CursorOk() && |ps| > 0 && IsMove(f)
      modifies `x, `y
      ensures (x, y) == Target(old(Abs()), f, ps)
    {
      hide NextStop, PrevStop;
      if f == 'A' {
        CursorUp(ps);
      } else if f == 'B' {
        CursorDown(ps);
      } else if f == 'C' {
        CursorForward(ps);
      } else if f == 'D' {
        CursorBackward(ps);
      } else if f == 'H' {
        CursorPos(ps);
      } else if f == 'E' {
        CursorNextLine(ps);
      } else if f == 'F' {
        CursorPrecedingLine(ps);
      } else if f == 'G' {
        CursorCharAbsolute(ps);
      } else if f == '`' {
        CharPosAbsolute(ps);
      } else if f == 'a' {
        HPositionRelative(ps);
      } else if f == 'd' {
        LinePosAbsolute(ps);
      } else if f == 'e' {
        VPositionRelative(ps);
      } else if f == 'f' {
        HVPosition(ps);
      } else if f == 'u' {
        RestoreCursor(ps);
      } else if f == 'I' {
        CursorForwardTab(ps);
      } else {
        CursorBackwardTab(ps);
      }
    }

    // -------------------------------------------------------------- painting

    /** One round of `refresh`. */
    method RefreshRow(k: int)
      requires Renderable(Abs()) && 0 <= k < rows && k < |paint.children|
      modifies `paint
      ensures paint == old(paint).(children := old(paint).children[k := RenderRow(old(Abs()), k)])
      ensures Shown() == old(Shown()) && Kept() == old(Kept()) && Control() == old(Control())
    {
      hide BufferOk, PaletteOk, LineOk, Text, Control, Shown, RenderLine;
      ControlFields();
      RenderableInside(Abs());
      RowIsOk(Abs(), k);
      var row := k + ydisp;
      var x := -1;
      if k == this.y && cursorState && ydisp == ybase && !cursorHidden {
        x := this.x;
      }
      var out := RenderCells(env.palette, lines[row].cells, cols, x);
      paint := paint.(children := paint.children[k := out]);
    }

    /** `refresh`. */
    method RefreshRows(start: int, end: int)
      requires Renderable(Abs()) && 0 <= start && end < rows
      modifies `paint
      ensures Renderable(Abs()) && Abs() == Refresh(old(Abs()), start, end)
    {
      hide Renderable, Text, Control, Shown, Kept, RenderRow;
      ghost var s := Abs();
      RenderableInside(s);
      var k := start;
      while k <= end
        invariant start <= k && (k == start || k <= end + 1)
        invariant |paint.children| == rows && paint == s.paint.(children := paint.children)
        invariant forall i {:trigger paint.children[i]} | 0 <= i < rows ::
                    paint.children[i] == if start <= i < k then RenderRow(s, i) else s.paint.children[i]
        invariant Shown() == s.buf && Kept() == s.normal && Control() == old(Control())
        decreases end - k
      {
        Repainted(s, Abs());
        RefreshRow(k);
        k := k + 1;
      }
      Repainted(s, Abs());
    }

    method ShowCursor()
      requires Renderable(Abs())
      modifies `cursorState, `paint
      ensures Abs() == Emulator.ShowCursor(old(Abs()))
    {
      hide BufferOk, PaletteOk, LineOk, Text, Shown, RenderRow;
      ghost var s := Abs();
      RenderableInside(s);
      CursorRowShown(s);
      if !cursorState {
        cursorState := true;
        assert Abs() == s.(cursorState := true);
        RefreshRows(y, y);
      }
    }

    // -------------------------------------------------------------- resets and the alternate screen

    /** The assignments at the start of the constructor, those to the buffer first. */
    method ResetBuffer()
      modifies `lines, `ybase, `ydisp, `x, `y, `scrollTop, `scrollBottom, `normal
      ensures lines == [] && normal == None
      ensures Shown() == Buffer([], 0, 0, 0, 0, 0, rows - 1, tabs)
      ensures Control() == old(Control()) && Kept() == None
    {
      hide Control, Shown, Kept, Text;
      MoveView(0, 0);
      MoveTo(0, 0);
      SetRegion(0, rows - 1);
      DropLines();
    }

    method DropLines()
      modifies `lines, `normal
      ensures lines == [] && normal == None
      ensures Shown() == old(Shown()).(lines := []) && Control() == old(Control()) && Kept() == None
    {
      hide Control;
      normal := None;
      lines := [];
    }

    method MoveView(base: int, disp: int)
      modifies `ybase, `ydisp
      ensures Shown() == old(Shown()).(ybase := base, ydisp := disp)
      ensures Control() == old(Control()) && Kept() == old(Kept())
    {
      hide Control, Kept, Text;
      ybase, ydisp := base, disp;
    }

    method MoveTo(x: int, y: int)
      modifies `x, `y
      ensures this.x == x && this.y == y
      ensures Shown() == old(Shown()).(x := x, y := y)
      ensures Control() == old(Control()) && Kept() == old(Kept())
    {
      hide Control, Kept, Text;
      this.x, this.y := x, y;
    }

    method SetRegion(top: int, bottom: int)
      modifies `scrollTop, `scrollBottom
      ensures Shown() == old(Shown()).(scrollTop := top, scrollBottom := bottom)
      ensures Control() == old(Control()) && Kept() == old(Kept())
    {
      hide Control, Kept, Text;
      scrollTop, scrollBottom := top, bottom;
    }

    method ResetFlags()
      modifies `cursorState, `cursorHidden, `convertEol
      ensures Control() == old(Control()).(cursorState := false, cursorHidden := false, convertEol := false)
      ensures Shown() == old(Shown()) && Kept() == old(Kept())
    {
      hide Shown, Kept, Text;
      cursorState, cursorHidden, convertEol := false, false, false;
    }

    method ResetControl()
      modifies `curAttr, `cursorState, `cursorHidden, `convertEol, `charsets, `parser, `queue
      ensures Control() == old(Control()).(curAttr := DEF_ATTR, cursorState := false, cursorHidden := false,
                                           convertEol := false, charsets := INITIAL_CHARSETS,
                                           parser := INITIAL_PARSER, queue := "")
      ensures Shown() == old(Shown()) && Kept() == old(Kept())
    {
      hide Shown, Kept, Text;
      ResetFlags();
      parser := INITIAL_PARSER;
      charsets := INITIAL_CHARSETS;
      queue := "";
      curAttr := DEF_ATTR;
    }

    /** One blank row for each row of the screen. */
    method PushLines()
      requires lines == [] && normal == None && 0 <= cols && 0 <= rows
      modifies `lines, `owned
      ensures Separate() && old(owned) <= owned && fresh(owned - old(owned))
      ensures forall r | r in lines :: r !in old(owned)
      ensures Shown() == old(Shown()).(lines := Repeat(BlankLine(cols, DEF_ATTR), rows))
      ensures Control() == old(Control()) && paint == old(paint) && Kept() == old(Kept())
    {
      hide Text, Insert, BlankLine, Repeat, Apart, Control, Kept, Shown;
      NothingApart(owned);
      ghost var b, blank := Shown(), BlankLine(cols, DEF_ATTR);
      NothingShown(b);
      RepeatNone(blank);
      var i := rows;
      while i > 0
        invariant 0 <= i <= rows
        invariant Separate() && old(owned) <= owned && fresh(owned - old(owned))
        invariant forall r | r in lines :: r !in old(owned)
        invariant Shown() == b.(lines := Repeat(blank, rows - i))
        invariant Control() == old(Control()) && paint == old(paint) && Kept() == old(Kept())
      {
        RepeatMore(blank, rows - i);
        PushBlank();
        i := i - 1;
      }
    }

    lemma NothingShown(b: Buffer)
      requires lines == [] && b == Shown()
      ensures b.(lines := []) == b
    {
    }

    /** The constructor run on an existing object. */
    method Reinitialize()
      requires 1 <= cols && 1 <= rows
      modifies this
      ensures cols == old(cols) && rows == old(rows) && normal == None
      ensures Separate() && old(owned) <= owned && fresh(owned - old(owned))
      ensures forall r | r in lines :: r !in old(owned)
      ensures Abs() == Reconstruct(old(Abs()))
    {
      hide Text, BlankLine, Repeat, Separate, Control, Shown, Kept, StopsFrom;
      ResetBuffer();
      ResetControl();
      PushLines();
      FirstStops();
    }

    /** The stops of a new screen. */
    method FirstStops()
      requires 1 <= cols
      modifies `tabs
      ensures Shown() == old(Shown()).(tabs := StopsFrom(0, cols))
      ensures Control() == old(Control()) && Kept() == old(Kept())
    {
      hide Text, Control, StopsFrom;
      SetupStops(None);
    }

    // -------------------------------------------------------------- dispatching commands

    /** The switch of `write` for the commands that edit lines. */
    method EditScreen(f: char, ps: seq<nat>)
      requires Ok() && |ps| > 0 && IsEdit(f)
      modifies this, lines
      ensures Separate() && fresh(owned - old(owned))
      ensures Abs() == Edit(old(Abs()), f, ps)
    {
      hide Writing, BufferOk, Separate, Text, Kept, Control, Shown, Touched, Screen.InsertLines, Screen.DeleteLines,
        Screen.ScrollUp, Screen.ScrollDown, Screen.InsertChars, Screen.DeleteChars, Screen.EraseChars, RepeatChar,
        Screen.EraseInDisplay, Screen.EraseInLine;
      CursorInside(Abs());
      if f == 'J' {
        EraseInDisplay(ps);
      } else if f == 'K' {
        EraseInLine(ps);
      } else if f == '@' || f == 'P' || f == 'X' || f == 'b' {
        EditCharacters(f, ps);
      } else if f == 'L' {
        InsertLines(ps);
      } else if f == 'M' {
        DeleteLines(ps);
      } else if f == 'S' {
        ScrollUp(ps);
      } else if |ps| < 2 && parser.prefix == "" {
        ScrollDown(ps);
      }
    }

    /** The same switch, for the commands that edit the cursor's row. */
    method EditCharacters(f: char, ps: seq<nat>)
      requires Ok() && |ps| > 0 && (f == '@' || f == 'P' || f == 'X' || f == 'b')
      modifies lines, `x
      ensures Abs() == Edit(old(Abs()), f, ps)
    {
      hide Writing, BufferOk, Separate, Text, Kept, Control, Shown, Screen.InsertChars, Screen.DeleteChars,
        Screen.EraseChars, RepeatChar;
      CursorInside(Abs());
      if f == '@' {
        InsertChars(ps);
      } else if f == 'P' {
        DeleteChars(ps);
      } else if f == 'X' {
        EraseChars(ps);
      } else {
        RepeatPrecedingCharacter(ps);
      }
    }

    /** `send`. */
    method Send(data: string)
      modifies `queue
      ensures Abs() == old(Abs()).(queue := old(queue) + data)
    {
      hide Kept, Shown, Text;
      queue := queue + data;
    }

    /** The timer of `send`: the queue has been handed on. */
    method Flush()
      modifies `queue
      ensures Abs() == old(Abs()).(queue := "")
    {
      hide Kept, Shown, Text;
      queue := "";
    }

    /** DSR. */
    method DeviceStatus(ps: seq<nat>)
      requires CursorOk() && |ps| > 0
      modifies `queue
      ensures Abs() == Set(old(Abs()), 'n', ps)
    {
      hide Kept, Shown, Text, Decimal;
      if parser.prefix == "" {
        if ps[0] == 5 {
          Send([ESC] + "[0n");
        } else if ps[0] == 6 {
          Send([ESC] + "[" + (Decimal(y + 1) + ";" + Decimal(x + 1) + "R"));
        }
      } else if parser.prefix == "?" {
        if ps[0] == 6 {
          Send([ESC] + "[?" + (Decimal(y + 1) + ";" + Decimal(x + 1) + "R"));
        }
      }
    }

    /** DA. */
    method SendDeviceAttributes(ps: seq<nat>)
      requires CursorOk() && |ps| > 0
      modifies `queue
      ensures Abs() == Set(old(Abs()), 'c', ps)
    {
      hide Kept, Shown, Text;
      if ps[0] > 0 {
        return;
      }
      if parser.prefix == "" {
        Send(env.primaryId);
      } else if parser.prefix == ">" {
        Send(env.secondaryId);
      }
    }

    /** SGR. */
    method CharAttributes(ps: seq<nat>)
      requires CursorOk() && AttrOk(curAttr) && |ps| > 0
      modifies `curAttr
      ensures Abs() == Set(old(Abs()), 'm', ps)
    {
      hide Shown, Text, Restyle, Pack, Unpack, AttrOk;
      curAttr := SgrPacked(curAttr, ps);
    }

    /** Save cursor. */
    method SaveCursor(ps: seq<nat>)
      requires CursorOk() && |ps| > 0
      modifies `savedX, `savedY
      ensures Abs() == Set(old(Abs()), 's', ps)
    {
      hide Kept, Shown, Text;
      savedX := x;
      savedY := y;
    }

    /** DECSTBM. */
    method SetScrollRegion(ps: seq<nat>)
      requires CursorOk() && |ps| > 0
      modifies `scrollTop, `scrollBottom, `x, `y
      ensures Abs() == Set(old(Abs()), 'r', ps)
    {
      hide Kept, Text, Control, Shown;
      if parser.prefix != "" {
        return;
      }
      SetRegion(Or(ps[0], 1) - 1, (if |ps| > 1 then Or(ps[1], rows) else rows) - 1);
      MoveTo(0, 0);
    }

    /** TBC. */
    method TabClear(ps: seq<nat>)
      requires CursorOk() && |ps| > 0
      modifies `tabs
      ensures Abs() == Set(old(Abs()), 'g', ps)
    {
      hide Kept, Text, Control;
      var param := ps[0];
      if param == 0 {
        tabs := tabs - {x};
      } else if param == 3 {
        tabs := {};
      }
    }

    /** DECSTR. */
    method SoftReset(ps: seq<nat>)
      requires CursorOk() && |ps| > 0 && parser.prefix == "!"
      modifies this
      ensures lines == old(lines) && normal == old(normal) && owned == old(owned)
      ensures Abs() == Set(old(Abs()), 'p', ps)
    {
      hide Kept, Text, Shown, Control;
      ControlFields();
      SetRegion(0, rows - 1);
      MoveTo(0, 0);
      SoftResetControl();
    }

    method SoftResetControl()
      modifies `cursorHidden, `curAttr, `charsets
      ensures Control() == old(Control()).(cursorHidden := false, curAttr := DEF_ATTR,
                charsets := old(charsets).(active := map[], glevel := 0, tables := INITIAL_CHARSETS.tables))
      ensures Shown() == old(Shown()) && Kept() == old(Kept())
    {
      hide Kept, Text, Shown;
      cursorHidden := false;
      curAttr := DEF_ATTR;
      charsets := charsets.(active := map[], glevel := 0, tables := INITIAL_CHARSETS.tables);
    }

    /** The switch of `write` for the commands that set one thing; unknown ones are ignored. */
    method ApplySetting(f: char, ps: seq<nat>)
      requires CursorOk() && AttrOk(curAttr) && |ps| > 0
      modifies this
      ensures lines == old(lines) && normal == old(normal) && owned == old(owned)
      ensures Abs() == Set(old(Abs()), f, ps)
    {
      hide Kept, Shown, Text, Control, Set, AttrOk;
      if f == 'm' {
        CharAttributes(ps);
      } else if f == 'n' {
        DeviceStatus(ps);
      } else if f == 'c' {
        SendDeviceAttributes(ps);
      } else if f == 's' {
        SaveCursor(ps);
      } else if f == 'r' {
        SetScrollRegion(ps);
      } else if f == 'g' {
        TabClear(ps);
      } else if f == 'p' {
        if parser.prefix == "!" {
          SoftReset(ps);
        } else {
          SetIgnores(Abs(), f, ps);
        }
      } else {
        SetIgnores(Abs(), f, ps);
      }
    }

    /** `reset`: the constructor again, and a repaint. */
    method ResetScreen()
      requires Valid(Abs())
      modifies this
      ensures normal == None && Separate() && fresh(owned - old(owned)) && old(owned) <= owned
      ensures forall r | r in lines :: r !in old(owned)
      ensures Abs() == Emulator.Reset(old(Abs()))
    {
      hide Renderable, BufferOk, PaletteOk, LineOk, Text, Control, Shown, Separate, RenderRow, Reconstruct, Refresh;
      RenderableInside(Abs());
      FreshIsOk(Abs());
      Reinitialize();
      RefreshRows(0, rows - 1);
    }

    /** ?47, ?1047 and ?1049 set: the main buffer is put aside. */
    method EnterAlternate()
      requires Ok()
      modifies this
      ensures Separate() && fresh(owned - old(owned))
      ensures Abs() == Emulator.EnterAlternate(old(Abs()))
    {
      hide Renderable, BufferOk, PaletteOk, LineOk, Text, Control, Emulator.Reset, Emulator.ShowCursor;
      SwitchIsValid(Abs());
      if normal.None? {
        ghost var was := owned;
        var saved := Saved(lines, ybase, ydisp, x, y, scrollTop, scrollBottom, tabs);
        ResetScreen();
        NormalUnseen(Abs(), Some(old(Shown())));
        normal := Some(saved);
        ShowCursor();
      }
    }

    /** ?47, ?1047 and ?1049 reset: the main buffer comes back. */
    method LeaveAlternate()
      requires Ok()
      modifies this
      ensures Separate() && owned == old(owned)
      ensures Abs() == Emulator.LeaveAlternate(old(Abs()))
    {
      hide Renderable, BufferOk, PaletteOk, LineOk, Text, Control, Emulator.Reset, Emulator.ShowCursor;
      SwitchIsValid(Abs());
      if normal.Some? {
        BackRenders(Abs());
        TakeBack();
        RefreshRows(0, rows - 1);
        ShowCursor();
      }
    }

    method TakeBack()
      requires normal.Some? && Separate()
      modifies `lines, `ybase, `ydisp, `x, `y, `scrollTop, `scrollBottom, `tabs, `normal
      ensures Separate() && normal.None?
      ensures Shown() == old(Kept()).value && Kept() == None && Control() == old(Control()) && paint == old(paint)
    {
      hide Text, Control, Separate, Shown;
      var saved := normal.value;
      TakeLines();
      MoveView(saved.ybase, saved.ydisp);
      MoveTo(saved.x, saved.y);
      SetRegion(saved.scrollTop, saved.scrollBottom);
      TakeTabs(saved.tabs);
    }

    method TakeLines()
      requires normal.Some? && Separate()
      modifies `lines, `normal
      ensures Separate() && normal.None? && Kept() == None
      ensures Shown() == old(Shown()).(lines := old(Kept()).value.lines) && Control() == old(Control())
    {
      hide Text, Control;
      lines := normal.value.lines;
      normal := None;
    }

    method TakeTabs(stops: set<int>)
      modifies `tabs
      ensures Shown() == old(Shown()).(tabs := stops)
    {
      hide Text;
      tabs := stops;
    }

    // -------------------------------------------------------------- resizing

    /** One more write to a row that has been written to since b. */
    method StoreAgain(ghost b: Buffer, i: int, ghost line: Line, cells: Line)
      requires Separate() && 0 <= i < |lines| == |b.lines| && Shown() == b.(lines := b.lines[i := line])
      modifies lines[i]
      ensures Shown() == b.(lines := b.lines[i := cells])
      ensures Kept() == old(Kept()) && Control() == old(Control()) && paint == old(paint)
    {
      hide Separate, Text, Kept, Control;
      Store(i, cells);
      assert b.lines[i := line][i := cells] == b.lines[i := cells];
    }

    /** Pushes or pops cells of one row. */
    method FitRow(i: int, x: int)
      requires Separate() && 0 <= i < |lines| && 0 <= x && 0 <= cols
      modifies lines[i]
      ensures Shown() == old(Shown()).(lines := old(Shown()).lines[i := FitLine(old(Shown()).lines[i], cols, x)])
      ensures Kept() == old(Kept()) && Control() == old(Control()) && paint == old(paint)
    {
      hide Separate, Text, Kept, Control, Shown;
      ghost var b, line, now := Shown(), lines[i].cells, lines[i].cells;
      assert b.lines[i := line] == b.lines;
      if cols < x {
        var ch := Cell(DEF_ATTR, ' ');
        while |lines[i].cells| < x
          invariant now == line + Repeat(ch, |now| - |line|) && |now| >= |line| && (|now| == |line| || |now| <= x)
          invariant Shown() == b.(lines := b.lines[i := now])
          invariant Kept() == old(Kept()) && Control() == old(Control()) && paint == old(paint)
          decreases x - |now|
        {
          StoreAgain(b, i, now, lines[i].cells + [ch]);
          now := now + [ch];
        }
      } else if cols > x {
        while |lines[i].cells| > x
          invariant |now| <= |line| && now == line[..|now|] && (|now| == |line| || |now| >= x)
          invariant Shown() == b.(lines := b.lines[i := now])
          invariant Kept() == old(Kept()) && Control() == old(Control()) && paint == old(paint)
          decreases |now|
        {
          StoreAgain(b, i, now, lines[i].cells[..|lines[i].cells| - 1]);
          now := now[..|now| - 1];
        }
      }
      assert now == FitLine(line, cols, x);
    }

    method FitColumns(x: int)
      requires Separate() && 1 <= x && 0 <= cols
      modifies lines
      ensures Shown() == old(Shown()).(lines := FitLines(old(Shown()).lines, cols, x))
      ensures Kept() == old(Kept()) && Control() == old(Control()) && paint == old(paint)
    {
      hide Separate, Text, Kept, Control, FitLine, Shown, FitLines;
      ghost var b := Shown();
      NothingFitted(b.lines, cols, x);
      var i := |lines|;
      while i > 0
        invariant 0 <= i <= |lines|
        invariant Shown() == b.(lines := FittedFrom(b.lines, i, cols, x))
        invariant Kept() == old(Kept()) && Control() == old(Control()) && paint == old(paint)
      {
        i := i - 1;
        FittedMore(b.lines, i, cols, x);
        FitRow(i, x);
      }
      FittedAll(b.lines, cols, x);
    }

    method PushChild()
      modifies `paint
      ensures paint == old(paint).(children := old(paint).children + [""])
      ensures Shown() == old(Shown()) && Kept() == old(Kept()) && Control() == old(Control())
    {
      hide Text, Kept, Control, Shown;
      paint := paint.(children := paint.children + [""]);
    }

    method PopChild()
      requires paint.children != []
      modifies `paint
      ensures paint == old(paint).(children := old(paint).children[..|old(paint).children| - 1])
      ensures Shown() == old(Shown()) && Kept() == old(Kept()) && Control() == old(Control())
    {
      hide Text, Kept, Control, Shown;
      paint := paint.(children := paint.children[..|paint.children| - 1]);
    }

    method GrowRows(y: int)
      requires Separate() && 0 <= cols && 0 <= ybase && |lines| == ybase + rows && |paint.children| == rows < y
      modifies `lines, `owned, `paint
      ensures Separate() && fresh(owned - old(owned))
      ensures Shown() == old(Shown()).(lines := Fit(old(Shown()).lines, ybase + y, BlankLine(cols, DEF_ATTR)))
      ensures paint == old(paint).(children := Fit(old(paint).children, y, ""))
      ensures Kept() == old(Kept()) && Control() == old(Control())
    {
      hide Separate, Text, Kept, Control, Shown, Fit, BlankLine;
      ghost var b, p, blank := Shown(), paint, BlankLine(cols, DEF_ATTR);
      FitSame(b.lines, blank);
      FitSame(p.children, "");
      var j := rows;
      while j < y
        invariant rows <= j <= y
        invariant Separate() && fresh(owned - old(owned))
        invariant Shown() == b.(lines := Fit(b.lines, ybase + j, blank))
        invariant paint == p.(children := Fit(p.children, j, ""))
        invariant Kept() == old(Kept()) && Control() == old(Control())
      {
        FitMore(b.lines, ybase + j, blank);
        FitMore(p.children, j, "");
        if |lines| < y + ybase {
          PushBlank();
        }
        if |paint.children| < y {
          PushChild();
        }
        j := j + 1;
      }
    }

    method ShrinkRows(y: int)
      requires Separate() && 0 <= cols && 0 <= y && 0 <= ybase
      requires |lines| == ybase + rows && |paint.children| == rows > y
      modifies `lines, `paint
      ensures Separate()
      ensures Shown() == old(Shown()).(lines := Fit(old(Shown()).lines, ybase + y, BlankLine(cols, DEF_ATTR)))
      ensures paint == old(paint).(children := Fit(old(paint).children, y, ""))
      ensures Kept() == old(Kept()) && Control() == old(Control())
    {
      hide Separate, Text, Kept, Control, Shown, Fit, BlankLine, Remove;
      ghost var b, p, blank := Shown(), paint, BlankLine(cols, DEF_ATTR);
      FitSame(b.lines, blank);
      FitSame(p.children, "");
      var j := rows;
      while j > y
        invariant y <= j <= rows
        invariant Separate()
        invariant Shown() == b.(lines := Fit(b.lines, ybase + j, blank))
        invariant paint == p.(children := Fit(p.children, j, ""))
        invariant Kept() == old(Kept()) && Control() == old(Control())
      {
        FitLess(b.lines, ybase + j, blank);
        FitLess(p.children, j, "");
        if |lines| > y + ybase {
          SpliceOut(|lines| - 1);
        }
        if |paint.children| > y {
          PopChild();
        }
        j := j - 1;
      }
    }

    /** The cursor stays on a screen of x columns and y rows. */
    method ClampCursor(x: int, y: int)
      modifies `x, `y
      ensures Shown() == old(Shown()).(x := Min(old(this.x), x - 1), y := Min(old(this.y), y - 1))
      ensures Control() == old(Control()) && Kept() == old(Kept())
    {
      hide Text, Kept, Control;
      if this.y >= y {
        this.y := y - 1;
      }
      if this.x >= x {
        this.x := x - 1;
      }
    }

    /** All of `resize` but the repaint and the loss of the saved buffer. */
    method Reshape(x: int, y: int)
      requires Separate() && Renderable(Abs()) && 1 <= x && 1 <= y
      modifies this, lines
      ensures Separate() && fresh(owned - old(owned)) && cols == x && rows == y && normal == old(normal)
      ensures Control() == old(Control()).(cols := x, rows := y) && Kept() == old(Kept())
      ensures 1 <= old(cols) && 1 <= old(rows) && 0 <= old(ybase)
      ensures Shown() == ResizeBuffer(old(Shown()), old(cols), old(rows), x, y)
      ensures paint == old(paint).(children := Fit(old(paint).children, y, ""))
    {
      hide Renderable, Separate, Text, Kept, Shown, Control, Fit, FitLines, BlankLine, StopsAfterResize,
        ResizeBuffer, Min;
      RenderableInside(Abs());
      ResizeInSteps(Shown(), cols, rows, x, y);
      ReshapeColumns(x);
      ReshapeRows(y);
      PlaceCursor(x, y);
    }

    method PlaceCursor(x: int, y: int)
      modifies `x, `y, `scrollTop, `scrollBottom
      ensures Shown() == old(Shown()).(x := Min(old(this.x), x - 1), y := Min(old(this.y), y - 1),
                                       scrollTop := 0, scrollBottom := y - 1)
      ensures Control() == old(Control()) && Kept() == old(Kept())
    {
      hide Text, Kept, Shown, Control, Min;
      ClampCursor(x, y);
      SetRegion(0, y - 1);
    }

    method ReshapeColumns(x: int)
      requires Separate() && 1 <= x && 1 <= cols
      modifies `cols, `tabs, lines
      ensures Separate() && cols == x && Control() == old(Control()).(cols := x)
      ensures Kept() == old(Kept()) && paint == old(paint)
      ensures Shown() == old(Shown()).(lines := FitLines(old(Shown()).lines, old(cols), x),
                                       tabs := StopsAfterResize(old(tabs), old(cols)))
    {
      hide Separate, Text, Kept, Shown, Control, FitLines, StopsAfterResize;
      FitColumns(x);
      Restop();
      SetColumns(x);
    }

    method ReshapeRows(y: int)
      requires Separate() && 0 <= cols && 1 <= y && 0 <= ybase && |lines| == ybase + rows && |paint.children| == rows
      modifies `rows, `lines, `owned, `paint
      ensures Separate() && fresh(owned - old(owned)) && rows == y
      ensures Control() == old(Control()).(rows := y) && Kept() == old(Kept())
      ensures Shown() == old(Shown()).(lines := Fit(old(Shown()).lines, ybase + y, BlankLine(cols, DEF_ATTR)))
      ensures paint == old(paint).(children := Fit(old(paint).children, y, ""))
    {
      hide Separate, Text, Kept, Shown, Control, Fit, BlankLine;
      if rows < y {
        GrowRows(y);
      } else if rows > y {
        ShrinkRows(y);
      } else {
        FitSame(Shown().lines, BlankLine(cols, DEF_ATTR));
        FitSame(paint.children, "");
      }
      SetRows(y);
    }

    /** The stops a resize adds, while the old width still counts. */
    method Restop()
      requires 1 <= cols
      modifies `tabs
      ensures Shown() == old(Shown()).(tabs := StopsAfterResize(old(tabs), cols))
      ensures Control() == old(Control()) && Kept() == old(Kept())
    {
      hide Text, Control, StopsAfterResize;
      SetupStops(Some(cols));
    }

    method SetColumns(x: int)
      modifies `cols
      ensures cols == x && Control() == old(Control()).(cols := x) && Shown() == old(Shown()) && Kept() == old(Kept())
    {
      hide Text, Shown, Kept;
      cols := x;
    }

    method SetRows(y: int)
      modifies `rows
      ensures rows == y && Control() == old(Control()).(rows := y) && Shown() == old(Shown()) && Kept() == old(Kept())
    {
      hide Text, Shown, Kept;
      rows := y;
    }

    /** `resize`. */
    method ResizeTo(x: int, y: int)
      requires Separate() && Valid(Abs())
      modifies this, lines
      ensures Separate() && fresh(owned - old(owned))
      ensures Abs() == Resize(old(Abs()), x, y)
    {
      hide Renderable, Valid, Text, Shown, Kept, Control, ResizeBuffer, Refresh, Separate, Resize;
      var x, y := if x < 1 then 1 else x, if y < 1 then 1 else y;
      ResizeForgets(Abs(), x, y);
      Reshape(x, y);
      RefreshRows(0, rows - 1);
      Forget();
    }

    method Forget()
      requires Separate()
      modifies `normal
      ensures Separate() && Abs() == old(Abs()).(normal := None)
    {
      hide Text, Shown, Control;
      normal := None;
    }

    // -------------------------------------------------------------- modes

    method SetCharsets(cs: Charsets)
      modifies `charsets
      ensures Abs() == old(Abs()).(charsets := cs)
    {
      hide Text, Shown, Kept;
      charsets := cs;
    }

    method HideCursor(hidden: bool)
      modifies `cursorHidden
      ensures Abs() == old(Abs()).(cursorHidden := hidden)
    {
      hide Text, Shown, Kept;
      cursorHidden := hidden;
    }

    method SaveColumns(n: Option<int>)
      modifies `savedCols
      ensures Abs() == old(Abs()).(savedCols := n)
    {
      hide Text, Shown, Kept;
      savedCols := n;
    }

    /** SM with one parameter. */
    method SetOneMode(p: nat)
      requires Ok()
      modifies this, lines
      ensures Separate() && fresh(owned - old(owned))
      ensures Abs() == SetMode(old(Abs()), p)
    {
      hide Renderable, Text, Shown, Kept, Control, Resize, Emulator.EnterAlternate, Separate, AllAscii;
      ControlFields();
      CursorInside(Abs());
      if parser.prefix == "?" {
        if p == 2 {
          SetCharsets(AllAscii(charsets));
        } else if p == 3 {
          ColumnsRemembered(Abs());
          SaveColumns(Some(cols));
          ResizeTo(132, rows);
        } else if p == 25 {
          HideCursor(false);
        } else if IsAlternate(p) {
          EnterAlternate();
        }
      }
    }

    /** RM with one parameter. */
    method ResetOneMode(p: nat)
      requires Ok()
      modifies this, lines
      ensures Separate() && fresh(owned - old(owned))
      ensures Abs() == ResetMode(old(Abs()), p)
    {
      hide Renderable, Text, Shown, Kept, Control, Resize, Emulator.LeaveAlternate, Separate, AllAscii;
      ControlFields();
      CursorInside(Abs());
      if parser.prefix == "?" {
        if p == 3 {
          if cols == 132 && savedCols.Some? {
            ResizeTo(savedCols.value, rows);
          }
          SaveColumns(None);
        } else if p == 25 {
          HideCursor(true);
        } else if IsAlternate(p) {
          LeaveAlternate();
        }
      }
    }

    lemma QueueShown()
      ensures Abs().queue == queue
    {
    }

    lemma RowsOwned()
      requires Separate()
      ensures forall r | r in lines :: r in owned
    {
    }

    /** SM with its parameter list. */
    method SetAllModes(ps: seq<nat>)
      requires Ok()
      modifies this, owned
      ensures Separate() && fresh(owned - old(owned))
      ensures Abs() == SetModes(old(Abs()), ps)
    {
      hide Writing, Text, Abs, Separate, SetMode;
      var i := 0;
      while i < |ps|
        invariant 0 <= i <= |ps|
        invariant Ok() && fresh(owned - old(owned))
        invariant SetModes(Abs(), ps[i..]) == SetModes(old(Abs()), ps)
      {
        SetModeIsValid(Abs(), ps[i]);
        RowsOwned();
        SetOneMode(ps[i]);
        i := i + 1;
      }
    }

    /** RM with its parameter list. */
    method ResetAllModes(ps: seq<nat>)
      requires Ok()
      modifies this, owned
      ensures Separate() && fresh(owned - old(owned))
      ensures Abs() == ResetModes(old(Abs()), ps)
    {
      hide Writing, Text, Abs, Separate, ResetMode;
      var i := 0;
      while i < |ps|
        invariant 0 <= i <= |ps|
        invariant Ok() && fresh(owned - old(owned))
        invariant ResetModes(Abs(), ps[i..]) == ResetModes(old(Abs()), ps)
      {
        ResetModeIsValid(Abs(), ps[i]);
        RowsOwned();
        ResetOneMode(ps[i]);
        i := i + 1;
      }
    }

    method MoveTerminal(f: char, ps: seq<nat>)
      requires CursorOk() && |ps| > 0 && IsMove(f)
      modifies `x, `y
      ensures Abs() == Move(old(Abs()), f, ps)
    {
      hide Text, Control, Target;
      MoveCursor(f, ps);
    }

    /** A complete control sequence: the switch of `write` over final characters. */
    method ExecuteCommand(f: char, ps: seq<nat>)
      requires Ok() && |ps| > 0
      modifies this, owned
      ensures Separate() && fresh(owned - old(owned))
      ensures Abs() == Execute(old(Abs()), f, ps)
    {
      hide Writing, Text, Shown, Kept, Control, Separate, Edit, Set, SetModes, ResetModes, Target, AttrOk;
      CursorInside(Abs());
      RowsOwned();
      if IsMove(f) {
        MoveTerminal(f, ps);
      } else if IsEdit(f) {
        EditScreen(f, ps);
      } else if f == 'h' {
        SetAllModes(ps);
      } else if f == 'l' {
        ResetAllModes(ps);
      } else {
        ApplySetting(f, ps);
      }
    }

    // -------------------------------------------------------------- one character

    method SetParser(p: Parser)
      modifies `parser
      ensures Abs() == old(Abs()).(parser := p)
    {
      hide Text, Shown, Kept;
      parser := p;
    }

    method MoveCursorTo(x: int, y: int)
      modifies `x, `y
      ensures this.x == x && this.y == y
      ensures Abs() == To(old(Abs()), x, y)
    {
      hide Text, Shown, Kept, Control;
      MoveTo(x, y);
    }

    /** A character in the cursor's cell: line[x] = [curAttr, ch]; x++. */
    method PutChar(ch: char)
      requires Ok() && x < cols
      modifies lines, `x, `paint
      ensures BufferOk(old(Shown()), cols, rows, env.scrollback)
      ensures Abs()
           == Touch(old(Abs()).(buf := PutCell(old(Shown()), cols, rows, env.scrollback, Cell(curAttr, ch))), y)
    {
      hide Writing, BufferOk, Separate, Text, Kept, Control, Shown, PutCell, CellPut, Touched;
      CursorInside(Abs());
      CursorRowInside(Abs());
      PutsCell(Abs(), Cell(curAttr, ch));
      PutNext(Cell(curAttr, ch));
      UpdateRange(y);
    }

    /** A printing character, with the pending wrap before it. */
    method PrintChar(ch: char)
      requires Ok()
      modifies this, owned
      ensures Separate() && fresh(owned - old(owned))
      ensures Abs() == Print(old(Abs()), ch)
    {
      hide Writing, BufferOk, Separate, Text, Kept, Control, Shown, PutCell, Wrap;
      ControlFields();
      WrapIsOk(Abs());
      var ch := if ch in charsets.active then charsets.active[ch] else ch;
      WrapLine();
      RowsOwned();
      PutChar(ch);
    }

    /** The pending wrap. */
    method WrapLine()
      requires Ok()
      modifies `x, `y, `lines, `ybase, `ydisp, `owned, `paint
      ensures Separate() && fresh(owned - old(owned))
      ensures Abs() == Wrap(old(Abs()))
    {
      hide Writing, BufferOk, Separate, Text, Kept, Control, Shown, IndexLine;
      HomeColumnShape(Abs());
      if x >= cols {
        MoveCursorTo(0, y);
        LineFeed();
      }
    }

    /** The cursor goes to the next stop. */
    method TabForward()
      requires CursorOk()
      modifies `x
      ensures Abs() == To(old(Abs()), NextStop(tabs, cols, old(x)), y)
    {
      hide Text, Control, NextStop;
      x := FindNextStop(x);
    }

    method ProcessNormal(ch: char)
      requires Ok()
      modifies this, owned
      ensures Separate() && fresh(owned - old(owned))
      ensures Abs() == StepNormal(old(Abs()), ch)
    {
      hide Writing, BufferOk, Separate, Text, Kept, Control, Shown, IndexLine, Print, SetGLevel, NextStop;
      ControlFields();
      RowsOwned();
      CursorInside(Abs());
      CharsetsAreFour(Abs());
      if IsLineFeed(ch) {
        if convertEol {
          HomeColumnShape(Abs());
          MoveCursorTo(0, y);
        }
        LineFeed();
      } else if ch == '\r' {
        MoveCursorTo(0, y);
      } else if ch == BS {
        if x > 0 {
          MoveCursorTo(x - 1, y);
        } else {
          CursorUnmoved(Abs());
        }
      } else if ch == '\t' {
        TabForward();
      } else if ch == SO {
        SetCharsets(SetGLevel(charsets, 1));
      } else if ch == SI {
        SetCharsets(SetGLevel(charsets, 0));
      } else if ch == ESC {
        SetParser(parser.(mode := Escaped));
      } else if ch >= ' ' {
        PrintChar(ch);
      }
    }

    /** IND and NEL. */
    method IndexCommand(nextLine: bool)
      requires Ok()
      modifies `x, `y, `lines, `ybase, `ydisp, `owned, `paint, `parser
      ensures Separate() && fresh(owned - old(owned))
      ensures Writing(if nextLine then To(old(Abs()), 0, old(y)) else old(Abs()))
      ensures Abs() == InMode(IndexLine(if nextLine then To(old(Abs()), 0, old(y)) else old(Abs())), Normal)
    {
      hide Writing, BufferOk, Separate, Text, Kept, Control, Shown, IndexLine;
      if nextLine {
        HomeColumnShape(Abs());
        MoveCursorTo(0, y);
      }
      LineFeed();
      SetParser(parser.(mode := Normal));
    }

    /** RI. */
    method ReverseIndexCommand()
      requires Ok()
      modifies `y, `lines, `owned, `paint, `parser
      ensures Separate() && fresh(owned - old(owned))
      ensures Abs() == InMode(ReverseIndexLine(old(Abs())), Normal)
    {
      hide Writing, BufferOk, Separate, Text, Kept, Control, Shown, ReverseIndex, Touched;
      CursorInside(Abs());
      ReverseLineFeed();
      SetParser(parser.(mode := Normal));
    }

    /** HTS, apart from the parser state. */
    method TabSet()
      modifies `tabs
      ensures Abs() == old(Abs()).(buf := old(Shown()).(tabs := old(tabs) + {x}))
    {
      hide Text, Kept, Control;
      tabs := tabs + {x};
    }

    /** Escape sequences that set one thing. */
    method SetEscape(ch: char)
      requires |charsets.tables| == 4 && CursorOk()
      modifies `parser, `charsets, `x, `y, `tabs, `savedX, `savedY
      ensures Abs() == SettingEscape(old(Abs()), ch)
    {
      hide Text, Kept, Control, Shown, EscapeParser, EscapeCharsets, EscapedScreen;
      ControlFields();
      SetEscapedScreen(ch);
      SetCharsets(EscapeCharsets(charsets, ch));
      SetParser(EscapeParser(parser, ch));
    }

    method SetEscapedScreen(ch: char)
      requires CursorOk()
      modifies `x, `y, `tabs, `savedX, `savedY
      ensures Abs() == EscapedScreen(old(Abs()), ch)
    {
      hide Text, Kept, Control, Shown;
      ControlFields();
      if ch == '7' {
        SaveCursor([0]);
      } else if ch == '8' {
        MoveTerminal('u', [0]);
      } else if ch == 'H' {
        TabSet();
      }
    }

    method ProcessEscaped(ch: char)
      requires Ok()
      modifies this
      ensures Separate() && fresh(owned - old(owned))
      ensures Abs() == StepEscaped(old(Abs()), ch)
    {
      hide Writing, BufferOk, Separate, Text, Kept, Control, Shown, IndexLine, ReverseIndexLine, Emulator.Reset,
        SettingEscape;
      ControlFields();
      CharsetsAreFour(Abs());
      CursorInside(Abs());
      if ch == 'c' {
        ValidWhileWriting(Abs());
        ResetScreen();
      } else if ch == 'E' {
        IndexCommand(true);
      } else if ch == 'D' {
        IndexCommand(false);
      } else if ch == 'M' {
        ReverseIndexCommand();
      } else {
        SetEscape(ch);
      }
    }

    /** The character after a designator selects a table for it. */
    method ProcessCharset(ch: char)
      requires Ok() && parser.mode == Charset
      modifies `charsets, `parser
      ensures Abs() == StepCharset(old(Abs()), ch)
    {
      hide BufferOk, PaletteOk, Text, Kept, Control, Shown, SetGCharset;
      ControlFields();
      var table := if ch == '0' then env.lineDrawing else map[];
      var cs := SetGCharset(charsets, charsets.gcharset, table);
      SetCharsets(cs.(gcharset := -1));
      SetParser(parser.(mode := Normal));
    }

    method SetTitle(text: string)
      modifies `title
      ensures Abs() == old(Abs()).(title := text)
    {
      hide Text, Shown, Kept;
      title := text;
    }

    method ProcessOsc(ch: char)
      modifies `title, `parser
      ensures Abs() == StepOsc(old(Abs()), ch)
    {
      hide Text, Kept, Control, Shown, Abs, StepOsc, OscParser;
      OscSteps(Abs(), ch);
      var p := parser;
      if (ch == ESC || ch == BEL) && p.params != [] && p.params[0] <= 2 && p.text != "" {
        SetTitle(p.text);
      }
      SetParser(OscParser(p, ch));
    }

    method ProcessCsi(ch: char)
      requires Ok() && parser.mode == Csi
      modifies this, owned
      ensures Separate() && fresh(owned - old(owned))
      ensures Abs() == StepCsi(old(Abs()), ch)
    {
      hide Writing, Text, Kept, Control, Shown, Separate, Execute;
      var p := parser;
      if IsPrefix(ch) {
        SetParser(p.(prefix := [ch]));
        return;
      }
      if IsDigit(ch) {
        SetParser(p.(currentParam := WithDigit(p.currentParam, ch)));
        return;
      }
      if IsPostfix(ch) {
        return;
      }
      var ps := p.params + [p.currentParam];
      if ch == ';' {
        SetParser(p.(params := ps, currentParam := 0));
        return;
      }
      CommandReady(Abs(), ps);
      SetParser(p.(mode := Normal, params := ps, currentParam := 0));
      ExecuteCommand(ch, ps);
      SetParser(parser.(prefix := ""));
    }

    /** The replies to DECRQSS and to a termcap request. */
    method Answer(prefix: string, text: string)
      requires 0 <= scrollTop && 0 <= scrollBottom
      modifies `queue
      ensures Abs() == old(Abs()).(queue := DcsReply(old(queue), prefix, text, scrollTop, scrollBottom))
    {
      hide Text, Kept, Shown, StatusReply;
      if prefix == "$q" {
        Send([ESC] + "P0$r" + StatusReply(text, scrollTop, scrollBottom) + [ESC] + "\\");
      } else if prefix == "+q" {
        Send([ESC] + "P0+r" + (if text == "" then "0" else text) + [ESC] + "\\");
      }
    }

    method ProcessDcs(ch: char)
      requires Ok()
      modifies `queue, `parser
      ensures Abs() == StepDcs(old(Abs()), ch)
    {
      hide Writing, Text, Kept, Control, Shown, DcsReply, DcsParser;
      ControlFields();
      CursorInside(Abs());
      var p := parser;
      if ch == ESC || ch == BEL {
        Answer(p.prefix, p.text);
      }
      SetParser(DcsParser(p, ch));
    }

    /** One round of the loop of `write`; the result is how far the index moves. */
    method Process(ch: char) returns (n: nat)
      requires Ok()
      modifies this, owned
      ensures Separate() && fresh(owned - old(owned))
      ensures n == Advance(old(parser.mode), ch)
      ensures Abs() == Step(old(Abs()), ch)
    {
      hide Writing, Text, Kept, Control, Shown, Separate, StepNormal, StepEscaped, StepCsi, StepOsc, StepCharset,
        StepDcs;
      n := Advance(parser.mode, ch);
      match parser.mode {
        case Normal => ProcessNormal(ch);
        case Escaped => ProcessEscaped(ch);
        case Csi => ProcessCsi(ch);
        case Osc => ProcessOsc(ch);
        case Charset => ProcessCharset(ch);
        case Dcs => ProcessDcs(ch);
        case Ignore =>
          if ch == ESC || ch == BEL {
            SetParser(parser.(mode := Normal));
          }
      }
    }

    // -------------------------------------------------------------- calls from the page

    /** The constructor's first call; a size of zero means the default geometry. */
    constructor (env: Env, cols: nat, rows: nat)
      ensures Separate() && fresh(owned)
      ensures Abs() == Created(env, if cols == 0 then 80 else cols, if rows == 0 then 24 else rows)
    {
      this.env := env;
      this.cols := if cols == 0 then 80 else cols;
      this.rows := if rows == 0 then 24 else rows;
      lines, normal, owned := [], None, {};
      savedX, savedY, savedCols := 0, 0, None;
      charsets, parser := INITIAL_CHARSETS, INITIAL_PARSER;
      title, queue, paint := "", "", Paint(0, 0, []);
      new;
      hide Text, Separate, Shown, FreshBuffer;
      Reinitialize();
    }

    /** `open`, as far as the screen is concerned. */
    method Open()
      requires paint.children == [] && 0 <= rows && Valid(Abs().(paint := paint.(children := Repeat("", rows))))
      modifies `paint, `cursorState
      ensures Abs() == Opened(old(Abs()))
    {
      hide Renderable, Text, Shown, Kept, Control, RenderRow, Refresh, Repeat, Separate, Emulator.ShowCursor;
      ghost var s := Abs();
      RepeatNone("");
      var i := 0;
      while i < rows
        invariant 0 <= i <= rows && paint == s.paint.(children := Repeat("", i))
        invariant Shown() == s.buf && Kept() == s.normal && Control() == old(Control())
      {
        RepeatMore("", i);
        PushChild();
        i := i + 1;
      }
      RenderableInside(Abs());
      RefreshRows(0, rows - 1);
      ShowCursor();
    }

    /** `write`. The loop ends for every text, because an ESC / that is read twice leaves `escaped`. */
    method Write(data: string)
      requires Separate() && Valid(Abs()) && Guarded(Begin(Abs()), data)
      modifies this, owned
      ensures Separate() && fresh(owned - old(owned))
      ensures Abs() == Emulator.Write(old(Abs()), data) && Writing(Abs())
    {
      hide Writing, Valid, Text, Abs, Separate, Guarded, Run, Begin, Finish, Emulator.Write, EscapedRank;
      ghost var s, s0 := Abs(), Begin(Abs());
      BeginWrite();
      WholeText(data);
      var i := 0;
      while i < |data|
        invariant 0 <= i && Ok() && fresh(owned - old(owned))
        invariant Guarded(Abs(), Drop(data, i)) && Run(Abs(), Drop(data, i)) == Run(s0, data)
        decreases |Drop(data, i)|, EscapedRank(Abs())
      {
        i := ProcessAt(data, i);
      }
      RunNothing(Abs());
      FinishShape(Abs());
      WriteIs(s, data);
      FinishWrite();
    }

    /** The character at index i, and the next index. */
    method ProcessAt(data: string, i: nat) returns (j: nat)
      requires i < |data| && Ok() && Guarded(Abs(), Drop(data, i))
      modifies this, owned
      ensures Ok() && fresh(owned - old(owned))
      ensures Guarded(Abs(), Drop(data, j)) && Run(Abs(), Drop(data, j)) == Run(old(Abs()), Drop(data, i))
      ensures |Drop(data, j)| < |Drop(data, i)| || (j == i && EscapedRank(Abs()) < EscapedRank(old(Abs())))
    {
      hide Writing, Text, Abs, Separate, Guarded, Run, Step, Guard, EscapedRank;
      RunOnce(Abs(), Drop(data, i));
      DropMore(data, i, Advance(parser.mode, data[i]));
      var n := Process(data[i]);
      j := i + n;
    }

    method BeginWrite()
      requires Valid(Abs())
      modifies `ydisp, `paint
      ensures Abs() == Begin(old(Abs()))
    {
      hide Renderable, Text, Kept, Control;
      paint := paint.(start := y, end := y);
      if ybase != ydisp {
        ydisp := ybase;
        MaxRange();
      }
    }

    method FinishWrite()
      requires Ok()
      modifies `paint
      ensures Abs() == Finish(old(Abs()))
    {
      hide Writing, Text, Shown, Kept, Control, Touched, Separate, RenderRow;
      CursorInside(Abs());
      TouchedRenders(Abs());
      UpdateRange(y);
      RefreshRows(paint.start, paint.end);
    }

    /** `scrollDisp`. */
    method ScrollDisp(disp: int)
      requires Renderable(Abs())
      modifies `ydisp, `paint
      ensures Abs() == ScrollView(old(Abs()), disp)
    {
      hide Renderable, Text, Kept, Control, RenderRow, Refresh;
      RenderableInside(Abs());
      ViewRenders(Abs(), disp);
      ydisp := ydisp + disp;
      if ydisp > ybase {
        ydisp := ybase;
      } else if ydisp < 0 {
        ydisp := 0;
      }
      RefreshRows(0, rows - 1);
    }

    /** The repaints of `cursorBlink` and of a terminal that loses the focus. */
    method SwitchCursorState(on: bool)
      requires Renderable(Abs())
      modifies `cursorState, `paint
      ensures Abs() == SwitchCursor(old(Abs()), on)
    {
      hide BufferOk, PaletteOk, Text, Kept, Shown, RenderRow, Refresh;
      ghost var s := Abs();
      CursorRowShown(Abs());
      cursorState := on;
      assert Abs() == s.(cursorState := on);
      RefreshRows(y, y);
    }
  }

  lemma PutsCell(s: State, c: Cell)
    requires Writing(s) && s.buf.x < s.cols
    ensures BufferOk(s.buf, s.cols, s.rows, s.env.scrollback)
    ensures 0 <= s.buf.ybase + s.buf.y < |s.buf.lines| && 0 <= s.buf.x < |VisibleLine(s.buf, s.buf.y)|
    ensures PutCell(s.buf, s.cols, s.rows, s.env.scrollback, c) == CellPut(s.buf, c)
  {
    CursorInside(s);
    CursorRowInside(s);
    hide Writing, BufferOk;
  }

  lemma OscSteps(s: State, ch: char)
    ensures var p := s.parser;
            StepOsc(s, ch) ==
            if (ch == ESC || ch == BEL) && p.params != [] && p.params[0] <= 2 && p.text != ""
            then s.(title := p.text).(parser := OscParser(p, ch))
            else s.(parser := OscParser(p, ch))
  {
    hide OscParser;
  }

  lemma CursorUnmoved(s: State)
    ensures To(s, s.buf.x, s.buf.y) == s
  {
  }

  lemma WholeText(data: string)
    ensures Drop(data, 0) == data
  {
  }

  lemma DropMore(data: string, i: nat, n: nat)
    requires i < |data|
    ensures Drop(Drop(data, i), n) == Drop(data, i + n) && (Drop(data, i + n) == Drop(data, i) ==> n == 0)
    ensures Drop(data, i) != [] && Drop(data, i)[0] == data[i]
  {
  }

  /** One step of a guarded run. */
  lemma RunOnce(s: State, data: string)
    requires Writing(s) && data != [] && Guarded(s, data)
    ensures var s', rest := Step(s, data[0]), Drop(data, Advance(s.parser.mode, data[0]));
            && Writing(s') && Guarded(s', rest) && Run(s, data) == Run(s', rest)
            && (|rest| < |data| || (rest == data && EscapedRank(s') < EscapedRank(s)))
  {
    StepShape(s, data[0]);
    StepAdvances(s, data);
    hide Writing, Step, Guard;
  }

  lemma WriteIs(s: State, data: string)
    requires Valid(s) && Writing(Run(Begin(s), data))
    ensures Emulator.Write(s, data) == Finish(Run(Begin(s), data))
  {
    hide Valid, Writing, Run, Begin, Finish;
  }

  lemma RunNothing(s: State)
    requires Writing(s)
    ensures Run(s, []) == s
  {
    hide Writing;
  }

  lemma TouchedRenders(s: State)
    requires Writing(s)
    ensures var t := Touch(s, s.buf.y); Renderable(t) && 0 <= t.paint.start && t.paint.end < t.rows
  {
    CursorInside(s);
    hide BufferOk, PaletteOk, AttrOk;
  }

  lemma ViewRenders(s: State, disp: int)
    requires Renderable(s)
    ensures Renderable(s.(buf := s.buf.(ydisp := Max(0, Min(s.buf.ydisp + disp, s.buf.ybase)))))
  {
    hide LineOk, PaletteOk;
  }

  /** The buffer of `resize`: columns first, then rows, then the cursor and the region. */
  lemma ResizeInSteps(b: Buffer, cols: int, rows: int, x: int, y: int)
    requires 1 <= cols && 1 <= rows && 1 <= x && 1 <= y && 0 <= b.ybase
    ensures var wide := b.(lines := FitLines(b.lines, cols, x), tabs := StopsAfterResize(b.tabs, cols));
            var high := wide.(lines := Fit(wide.lines, b.ybase + y, BlankLine(x, DEF_ATTR)));
            ResizeBuffer(b, cols, rows, x, y)
            == high.(x := Min(b.x, x - 1), y := Min(b.y, y - 1), scrollTop := 0, scrollBottom := y - 1)
  {
    hide Fit, FitLines, BlankLine, StopsAfterResize;
  }

  lemma RefreshUnseen(s: State, n: Option<Buffer>, start: int, end: int)
    requires Renderable(s) && Renderable(s.(normal := n)) && 0 <= start && end < s.rows
    ensures Refresh(s.(normal := n), start, end).(normal := s.normal) == Refresh(s, start, end)
  {
    hide BufferOk, PaletteOk, RenderLine;
    var t, r := Refresh(s.(normal := n), start, end), Refresh(s, start, end);
    assert t.paint.children == r.paint.children;
  }

  lemma ColumnsRemembered(s: State)
    requires Writing(s)
    ensures Valid(s.(savedCols := Some(s.cols)))
  {
    hide BufferOk, PaletteOk, AttrOk;
    RenderableInside(s);
  }

  /** It makes no difference that the repaint comes before the saved buffer is lost. */
  lemma ResizeForgets(s: State, x: int, y: int)
    requires Valid(s) && 1 <= x && 1 <= y
    ensures Renderable(s) && Renderable(Resized(s, x, y).(normal := s.normal))
    ensures Refresh(Resized(s, x, y).(normal := s.normal), 0, y - 1).(normal := None) == Resize(s, x, y)
    ensures forall u, v | Max(u, 1) == x && Max(v, 1) == y :: Resize(s, u, v) == Resize(s, x, y)
  {
    hide Renderable, Resized;
    ResizedIsOk(s, x, y);
    NormalUnseen(Resized(s, x, y), s.normal);
    ResizedForgets(s, x, y);
    RefreshUnseen(Resized(s, x, y), s.normal, 0, y - 1);
  }

  lemma ResizedForgets(s: State, x: int, y: int)
    requires Valid(s) && 1 <= x && 1 <= y
    ensures Resized(s, x, y).normal == None && Resized(s, x, y).rows == y
  {
    hide Renderable;
  }

  /** The rows from i on fitted, which is the order of the loop. */
  ghost function FittedFrom(ls: seq<Line>, i: nat, cols: nat, newCols: nat): seq<Line>
    requires i <= |ls|
  {
    ls[..i] + FitLines(ls[i..], cols, newCols)
  }

  lemma NothingFitted(ls: seq<Line>, cols: nat, newCols: nat)
    ensures FittedFrom(ls, |ls|, cols, newCols) == ls
  {
  }

  lemma FittedMore(ls: seq<Line>, i: nat, cols: nat, newCols: nat)
    requires i < |ls|
    ensures var f := FittedFrom(ls, i + 1, cols, newCols);
            |f| == |ls| && FittedFrom(ls, i, cols, newCols) == f[i := FitLine(f[i], cols, newCols)]
  {
    hide FitLine;
  }

  lemma FittedAll(ls: seq<Line>, cols: nat, newCols: nat)
    ensures FittedFrom(ls, 0, cols, newCols) == FitLines(ls, cols, newCols)
  {
    assert ls[0..] == ls;
  }

  lemma FitSame<T>(s: seq<T>, v: T)
    ensures Fit(s, |s|, v) == s
  {
  }

  lemma FitMore<T>(s: seq<T>, n: nat, v: T)
    requires |s| <= n
    ensures Fit(s, n + 1, v) == Fit(s, n, v) + [v]
  {
  }

  lemma FitLess<T>(s: seq<T>, n: nat, v: T)
    requires 0 < n <= |s|
    ensures Fit(s, n - 1, v) == Remove(Fit(s, n, v), n - 1) == Fit(s, n, v)[..n - 1]
  {
  }

  /** The saved buffer plays no part in rendering. */
  lemma NormalUnseen(s: State, n: Option<Buffer>)
    requires Renderable(s)
    ensures Renderable(s.(normal := n))
  {
    hide BufferOk, PaletteOk;
  }

  lemma BackRenders(s: State)
    requires Writing(s) && s.normal.Some?
    ensures Renderable(s.(buf := s.normal.value, normal := None)) && 1 <= s.rows
  {
    hide PaletteOk, LineOk;
  }

  lemma SetIgnores(s: State, f: char, ps: seq<nat>)
    requires |ps| > 0 && 0 <= s.buf.x && 0 <= s.buf.y
    requires f != 'm' && f != 'n' && f != 'c' && f != 's' && f != 'r' && f != 'g' && !IsSoftReset(s.parser.prefix, f)
    ensures Set(s, f, ps) == s
  {
    hide Restyle, Pack, Unpack;
  }

  lemma ShortenedLine(b: Buffer, cols: int, rows: int, scrollback: int, c: Cell, n: nat)
    requires BufferOk(b, cols, rows, scrollback) && n > 0
    requires 0 <= b.ybase + b.y < |b.lines| && 0 <= b.x <= |VisibleLine(b, b.y)|
    ensures WithRow(b, b.y, Shortened(VisibleLine(b, b.y), b.x, 0, c)) == b
    ensures WithRow(b, b.y, Shortened(VisibleLine(b, b.y), b.x, n, c))
         == Screen.DeleteChars(b, cols, rows, scrollback, c, n)
  {
    hide BufferOk, ShiftUp, Shortened;
    SameRow(b, b.y);
    ShortenedIs(VisibleLine(b, b.y), b.x, n, c);
  }

  lemma ShortenedIs(line: Line, x: nat, n: nat, c: Cell)
    requires x <= |line| && n > 0
    ensures Shortened(line, x, 0, c) == line
    ensures Shortened(line, x, n, c) == if x < |line| then ShiftUp(line, x, |line|, n, c) else line + [c]
  {
  }

  lemma RepeatsChar(b: Buffer, cols: int, rows: int, scrollback: int, c: Cell, n: nat)
    requires BufferOk(b, cols, rows, scrollback)
    requires 0 <= b.ybase + b.y < |b.lines| && 0 <= b.x <= |VisibleLine(b, b.y)|
    requires c == if b.x > 0 then VisibleLine(b, b.y)[b.x - 1] else Blank(DEF_ATTR)
    ensures Repeated(b, c, n) == RepeatChar(b, cols, rows, scrollback, n)
  {
    hide LineOk, Fill;
  }

  lemma CursorLineInside(b: Buffer, cols: int, rows: int, scrollback: int)
    requires BufferOk(b, cols, rows, scrollback)
    ensures 0 <= b.ybase + b.y < |b.lines| && b.x <= cols <= |VisibleLine(b, b.y)|
  {
    assert LineOk(VisibleLine(b, b.y), cols);
  }

  /** Only the buffer and the cursor's visibility matter to a rendering. */
  lemma Repainted(s: State, t: State)
    requires Renderable(s) && t == s.(paint := t.paint) && |t.paint.children| == s.rows
    ensures Renderable(t) && forall k | 0 <= k < s.rows :: RenderRow(t, k) == RenderRow(s, k)
  {
    hide BufferOk, PaletteOk, RenderLine;
  }

  lemma RenderableInside(s: State)
    requires Renderable(s)
    ensures 1 <= s.cols && 1 <= s.rows && |s.buf.lines| == s.buf.ybase + s.rows && 0 <= s.buf.ydisp <= s.buf.ybase
    ensures |s.paint.children| == s.rows && PaletteOk(s.env.palette) && s.env.scrollback >= 2
  {
    hide PaletteOk, LineOk;
  }

  lemma RowIsOk(s: State, k: int)
    requires Renderable(s) && 0 <= k < s.rows
    ensures 0 <= k + s.buf.ydisp < |s.buf.lines| && LineOk(s.buf.lines[k + s.buf.ydisp], s.cols)
  {
    hide PaletteOk, LineOk;
  }

  lemma CursorRowShown(s: State)
    requires Renderable(s)
    ensures 0 <= s.buf.y < s.rows
  {
    hide PaletteOk, LineOk;
  }

  lemma NothingApart(owned: set<Row>)
    ensures Apart([], [], owned)
  {
  }

  lemma RepeatNone<T>(v: T)
    ensures Repeat(v, 0) == []
  {
  }

  lemma RepeatMore<T>(v: T, n: nat)
    ensures Repeat(v, n + 1) == Repeat(v, n) + [v]
  {
  }
}
