/**
 The screen buffer as a value: scrollback and visible lines, cursor, scroll region and tab
 stops. These are the eight fields that `setMode` saves when it switches to the alternate
 screen (static/term.js:3262-3271). The editing operations are given in closed form.
 */
module Screen {
  import opened Shifts
  import opened Attributes
  import opened Rendering

  datatype Buffer = Buffer(
    lines: seq<Line>,
    ybase: int,
    ydisp: int,
    x: int,
    y: int,
    scrollTop: int,
    scrollBottom: int,
    tabs: set<int>)

  /** Stands for the NaN that HVP stores in x when its second parameter is missing. */
  const NAN_COLUMN := -1

  function Blank(attr: bv32): Cell {
    Cell(attr, ' ')
  }

  function BlankLine(cols: nat, attr: bv32): (line: Line)
    ensures |line| == cols && forall i | 0 <= i < cols :: line[i] == Blank(attr)
  {
    Repeat(Blank(attr), cols)
  }

  ghost predicate BufferOk(b: Buffer, cols: int, rows: int, scrollback: int) {
    && 1 <= cols && 1 <= rows
    && |b.lines| == b.ybase + rows
    && 0 <= b.ydisp <= b.ybase < scrollback
    && 0 <= b.x <= cols
    && 0 <= b.y < rows
    && 0 <= b.scrollTop <= b.scrollBottom < rows
    && forall i | 0 <= i < |b.lines| :: LineOk(b.lines[i], cols)
  }

  /** The visible line at row k, when the view is scrolled to the bottom. */
  function VisibleLine(b: Buffer, k: int): Line
    requires 0 <= b.ybase + k < |b.lines|
  {
    b.lines[b.ybase + k]
  }

  function WithRow(b: Buffer, k: int, line: Line): Buffer
    requires 0 <= b.ybase + k < |b.lines|
  {
    b.(lines := b.lines[b.ybase + k := line])
  }

  /** Columns lo to hi of a line set to c, the line growing if it is shorter than hi. */
  function Fill(line: Line, lo: nat, hi: nat, c: Cell): (r: Line)
    requires lo <= |line| && lo <= hi
    ensures |r| == Max(|line|, hi)
    ensures forall i | 0 <= i < |r| :: r[i] == if lo <= i < hi then c else line[i]
  {
    line[..lo] + Repeat(c, hi - lo) + line[Min(hi, |line|)..]
  }

  /** Rows lo to hi with their first cols columns set to c. */
  function EraseRows(b: Buffer, lo: nat, hi: nat, cols: nat, c: Cell): (r: Buffer)
    requires 0 <= b.ybase && b.ybase + hi <= |b.lines|
    ensures |r.lines| == |b.lines| && r == b.(lines := r.lines)
    ensures forall i {:trigger r.lines[i]} | 0 <= i < |b.lines| ::
              r.lines[i] == if b.ybase + lo <= i < b.ybase + hi then Fill(b.lines[i], 0, cols, c) else b.lines[i]
  {
    b.(lines := seq(|b.lines|, i requires 0 <= i < |b.lines| =>
         if b.ybase + lo <= i < b.ybase + hi then Fill(b.lines[i], 0, cols, c) else b.lines[i]))
  }

  function EraseRight(b: Buffer, cols: nat, c: Cell): Buffer
    requires 0 <= b.y && 0 <= b.ybase && b.ybase + b.y < |b.lines| && 0 <= b.x <= |VisibleLine(b, b.y)|
  {
    WithRow(b, b.y, Fill(VisibleLine(b, b.y), b.x, Max(b.x, cols), c))
  }

  function EraseLeft(b: Buffer, c: Cell): Buffer
    requires 0 <= b.y && 0 <= b.ybase && b.ybase + b.y < |b.lines| && 0 <= b.x
  {
    WithRow(b, b.y, Fill(VisibleLine(b, b.y), 0, b.x + 1, c))
  }

  /** ED: 0 erases from the cursor on, 1 up to the cursor, 2 everything visible. */
  function EraseInDisplay(b: Buffer, cols: int, rows: int, scrollback: int, c: Cell, how: nat): Buffer
    requires BufferOk(b, cols, rows, scrollback)
  {
    if how == 0 then EraseRows(EraseRight(b, cols, c), b.y + 1, rows, cols, c)
    else if how == 1 then EraseRows(EraseLeft(b, c), 0, b.y, cols, c)
    else if how == 2 then EraseRows(b, 0, rows, cols, c)
    else b
  }

  /** EL: the same for the cursor's line. */
  function EraseInLine(b: Buffer, cols: int, rows: int, scrollback: int, c: Cell, how: nat): Buffer
    requires BufferOk(b, cols, rows, scrollback)
  {
    if how == 0 then EraseRight(b, cols, c)
    else if how == 1 then EraseLeft(b, c)
    else if how == 2 then EraseRows(b, b.y, b.y + 1, cols, c)
    else b
  }

  /** IL: with the cursor below the region its lines between margin and cursor move up instead. */
  function InsertLines(b: Buffer, cols: int, rows: int, scrollback: int, attr: bv32, n: nat): Buffer
    requires BufferOk(b, cols, rows, scrollback)
  {
    var row, end := b.ybase + b.y, b.ybase + b.scrollBottom + 1;
    b.(lines := if row < end then ShiftDown(b.lines, row, end, n, BlankLine(cols, attr))
                else ShiftUp(b.lines, end, row, n, BlankLine(cols, attr)))
  }

  /** DL: with the cursor below the region its lines between margin and cursor move down instead. */
  function DeleteLines(b: Buffer, cols: int, rows: int, scrollback: int, attr: bv32, n: nat): Buffer
    requires BufferOk(b, cols, rows, scrollback)
  {
    var row, end := b.ybase + b.y, b.ybase + b.scrollBottom + 1;
    b.(lines := if row < end then ShiftUp(b.lines, row, end, n, BlankLine(cols, attr))
                else ShiftDown(b.lines, end, row, n, BlankLine(cols, attr)))
  }

  /** SU. */
  function ScrollUp(b: Buffer, cols: int, rows: int, scrollback: int, n: nat): Buffer
    requires BufferOk(b, cols, rows, scrollback)
  {
    b.(lines := ShiftUp(b.lines, b.ybase + b.scrollTop, b.ybase + b.scrollBottom + 1, n, BlankLine(cols, DEF_ATTR)))
  }

  /** SD. */
  function ScrollDown(b: Buffer, cols: int, rows: int, scrollback: int, n: nat): Buffer
    requires BufferOk(b, cols, rows, scrollback)
  {
    b.(lines := ShiftDown(b.lines, b.ybase + b.scrollTop, b.ybase + b.scrollBottom + 1, n, BlankLine(cols, DEF_ATTR)))
  }

  /** ICH: blanks from the cursor on, the rest of the line moving right; the line keeps its length. */
  function InsertChars(b: Buffer, cols: int, rows: int, scrollback: int, c: Cell, n: nat): Buffer
    requires BufferOk(b, cols, rows, scrollback)
  {
    var line := VisibleLine(b, b.y);
    WithRow(b, b.y, ShiftDown(line, b.x, |line|, Min(n, cols - b.x), c))
  }

  /** DCH: the rest of the line moves left. At the very end of a line it only appends one blank. */
  function DeleteChars(b: Buffer, cols: int, rows: int, scrollback: int, c: Cell, n: nat): Buffer
    requires BufferOk(b, cols, rows, scrollback)
  {
    var line := VisibleLine(b, b.y);
    WithRow(b, b.y, if b.x < |line| then ShiftUp(line, b.x, |line|, n, c) else line + [c])
  }

  /** ECH. */
  function EraseChars(b: Buffer, cols: int, rows: int, scrollback: int, c: Cell, n: nat): Buffer
    requires BufferOk(b, cols, rows, scrollback)
  {
    WithRow(b, b.y, Fill(VisibleLine(b, b.y), b.x, Min(b.x + n, cols), c))
  }

  /** REP: copies the cell left of the cursor and moves on, without looking at the line's end. */
  function RepeatChar(b: Buffer, cols: int, rows: int, scrollback: int, n: nat): Buffer
    requires BufferOk(b, cols, rows, scrollback)
  {
    var line := VisibleLine(b, b.y);
    var c := if b.x > 0 then line[b.x - 1] else Blank(DEF_ATTR);
    WithRow(b, b.y, Fill(line, b.x, b.x + n, c)).(x := b.x + n)
  }

  /** A character in the cursor's cell. */
  function PutCell(b: Buffer, cols: int, rows: int, scrollback: int, c: Cell): Buffer
    requires BufferOk(b, cols, rows, scrollback) && b.x < cols
  {
    assert LineOk(VisibleLine(b, b.y), cols);
    WithRow(b, b.y, VisibleLine(b, b.y)[b.x := c]).(x := b.x + 1)
  }

  /** The last n elements. */
  function Last<T>(s: seq<T>, n: nat): (r: seq<T>)
    requires n <= |s|
    ensures |r| == n
  {
    s[|s| - n..]
  }

  /** The rows above the screen that survive a `scroll`, the newest last. */
  function ScrolledHistory(b: Buffer, scrollback: int): (h: seq<Line>)
    requires 0 <= b.ybase < scrollback && b.ybase < |b.lines| && scrollback >= 2
    ensures |h| < scrollback
    ensures |h| == b.ybase + 1 - (if b.scrollTop == 0 then 0 else 1)
             - (if b.ybase + 1 == scrollback then scrollback - scrollback / 2 else 0)
    ensures var end := if b.scrollTop == 0 then b.ybase + 1 else b.ybase;
            |h| <= end && forall i | 0 <= i < |h| :: h[i] == b.lines[end - |h| + i]
  {
    var full := b.ybase + 1 == scrollback;
    if b.scrollTop == 0 then Last(b.lines[..b.ybase + 1], if full then scrollback / 2 else b.ybase + 1)
    else Last(b.lines[..b.ybase], if full then scrollback / 2 - 1 else b.ybase)
  }

  /**
   `scroll`: the region moves up one row. Only when it starts at the top of the screen does the lost row
   become history. History that reaches the scrollback limit is cut to half of it.
   */
  function Scroll(b: Buffer, cols: int, rows: int, scrollback: int): Buffer
    requires BufferOk(b, cols, rows, scrollback) && scrollback >= 2
  {
    var h := ScrolledHistory(b, scrollback);
    var visible := ShiftUp(b.lines[b.ybase..], b.scrollTop, b.scrollBottom + 1, 1, BlankLine(cols, DEF_ATTR));
    b.(lines := h + visible, ybase := |h|, ydisp := |h|)
  }

  /** Next line, scrolling when the cursor would leave the region, or is already below it. */
  function Index(b: Buffer, cols: int, rows: int, scrollback: int): Buffer
    requires BufferOk(b, cols, rows, scrollback) && scrollback >= 2
  {
    if b.y + 1 > b.scrollBottom then Scroll(b, cols, rows, scrollback) else b.(y := b.y + 1)
  }

  /** Previous line; at or above the top margin everything from the cursor down moves instead. */
  function ReverseIndex(b: Buffer, cols: int, rows: int, scrollback: int, attr: bv32): Buffer
    requires BufferOk(b, cols, rows, scrollback)
  {
    if b.y - 1 < b.scrollTop then
      b.(lines := ShiftDown(b.lines, b.ybase + b.y, b.ybase + b.scrollBottom + 1, 1, BlankLine(cols, attr)))
    else b.(y := b.y - 1)
  }

  // ---------------------------------------------------------------- shape

  lemma ScrolledLineIsOk(b: Buffer, cols: int, rows: int, scrollback: int, i: nat)
    requires BufferOk(b, cols, rows, scrollback) && scrollback >= 2
    requires i < |Scroll(b, cols, rows, scrollback).lines|
    ensures LineOk(Scroll(b, cols, rows, scrollback).lines[i], cols)
  {
    hide LineOk, ShiftUp, ScrolledHistory, BlankLine;
    var h := ScrolledHistory(b, scrollback);
    var visible := ShiftUp(b.lines[b.ybase..], b.scrollTop, b.scrollBottom + 1, 1, BlankLine(cols, DEF_ATTR));
    BlankIsOk(cols, DEF_ATTR);
    if i >= |h| {
      assert Scroll(b, cols, rows, scrollback).lines[i] == visible[i - |h|];
    }
  }

  lemma ScrollIsOk(b: Buffer, cols: int, rows: int, scrollback: int)
    requires BufferOk(b, cols, rows, scrollback) && scrollback >= 2
    ensures BufferOk(Scroll(b, cols, rows, scrollback), cols, rows, scrollback)
  {
    hide LineOk, ShiftUp, ScrolledHistory, BlankLine;
    var r := Scroll(b, cols, rows, scrollback);
    forall i | 0 <= i < |r.lines|
      ensures LineOk(r.lines[i], cols)
    {
      ScrolledLineIsOk(b, cols, rows, scrollback, i);
    }
  }

  lemma BufferInside(b: Buffer, cols: int, rows: int, scrollback: int)
    requires BufferOk(b, cols, rows, scrollback)
    ensures 1 <= cols && 1 <= rows && |b.lines| == b.ybase + rows && 0 <= b.ydisp <= b.ybase < scrollback
    ensures 0 <= b.x <= cols && 0 <= b.y < rows && 0 <= b.scrollTop <= b.scrollBottom < rows
  {
  }

  lemma BlankIsOk(cols: nat, attr: bv32)
    ensures AttrOk(attr) ==> LineOk(BlankLine(cols, attr), cols)
    ensures AttrOk(DEF_ATTR)
  {
  }

  lemma IndexIsOk(b: Buffer, cols: int, rows: int, scrollback: int)
    requires BufferOk(b, cols, rows, scrollback) && scrollback >= 2
    ensures BufferOk(Index(b, cols, rows, scrollback), cols, rows, scrollback)
  {
    ScrollIsOk(b, cols, rows, scrollback);
  }

  /** A buffer whose lines are replaced by sound lines, the rest staying the same. */
  lemma LinesAreOk(b: Buffer, b': Buffer, cols: int, rows: int, scrollback: int)
    requires BufferOk(b, cols, rows, scrollback)
    requires b' == b.(lines := b'.lines) && |b'.lines| == |b.lines|
    requires forall i | 0 <= i < |b.lines| :: LineOk(b'.lines[i], cols)
    ensures BufferOk(b', cols, rows, scrollback)
  {
  }

  /** The operations that shift whole lines. */
  lemma LineShiftsAreOk(b: Buffer, cols: int, rows: int, scrollback: int, attr: bv32, n: nat)
    requires BufferOk(b, cols, rows, scrollback) && AttrOk(attr)
    ensures BufferOk(InsertLines(b, cols, rows, scrollback, attr, n), cols, rows, scrollback)
    ensures BufferOk(DeleteLines(b, cols, rows, scrollback, attr, n), cols, rows, scrollback)
    ensures BufferOk(ScrollUp(b, cols, rows, scrollback, n), cols, rows, scrollback)
    ensures BufferOk(ScrollDown(b, cols, rows, scrollback, n), cols, rows, scrollback)
    ensures BufferOk(ReverseIndex(b, cols, rows, scrollback, attr), cols, rows, scrollback)
  {
    hide LineOk, AttrOk, ShiftDown, ShiftUp, BlankLine;
    BlankIsOk(cols, attr);
    BlankIsOk(cols, DEF_ATTR);
    LinesAreOk(b, InsertLines(b, cols, rows, scrollback, attr, n), cols, rows, scrollback);
    LinesAreOk(b, DeleteLines(b, cols, rows, scrollback, attr, n), cols, rows, scrollback);
    LinesAreOk(b, ScrollUp(b, cols, rows, scrollback, n), cols, rows, scrollback);
    LinesAreOk(b, ScrollDown(b, cols, rows, scrollback, n), cols, rows, scrollback);
  }

  lemma WithRowIsOk(b: Buffer, k: int, line: Line, cols: int, rows: int, scrollback: int)
    requires BufferOk(b, cols, rows, scrollback) && 0 <= k < rows && LineOk(line, cols)
    ensures BufferOk(WithRow(b, k, line), cols, rows, scrollback)
  {
    hide LineOk;
  }

  lemma PutCellIsOk(b: Buffer, cols: int, rows: int, scrollback: int, c: Cell)
    requires BufferOk(b, cols, rows, scrollback) && b.x < cols && CellOk(c)
    ensures BufferOk(PutCell(b, cols, rows, scrollback, c), cols, rows, scrollback)
  {
    hide CellOk;
  }

  lemma FillIsOk(line: Line, cols: int, lo: nat, hi: nat, c: Cell)
    requires LineOk(line, cols) && lo <= |line| && lo <= hi && CellOk(c)
    ensures LineOk(Fill(line, lo, hi, c), cols)
  {
    hide CellOk;
  }

  lemma EraseRowsIsOk(b: Buffer, lo: nat, hi: nat, cols: int, rows: int, scrollback: int, c: Cell)
    requires BufferOk(b, cols, rows, scrollback) && hi <= rows && CellOk(c)
    ensures BufferOk(EraseRows(b, lo, hi, cols, c), cols, rows, scrollback)
  {
    var r := EraseRows(b, lo, hi, cols, c);
    forall i | 0 <= i < |b.lines|
      ensures LineOk(r.lines[i], cols)
    {
      FillIsOk(b.lines[i], cols, 0, cols, c);
    }
  }

  lemma ErasingIsOk(b: Buffer, cols: int, rows: int, scrollback: int, c: Cell, how: nat)
    requires BufferOk(b, cols, rows, scrollback) && CellOk(c)
    ensures BufferOk(EraseInDisplay(b, cols, rows, scrollback, c, how), cols, rows, scrollback)
    ensures BufferOk(EraseInLine(b, cols, rows, scrollback, c, how), cols, rows, scrollback)
  {
    var line := VisibleLine(b, b.y);
    FillIsOk(line, cols, b.x, Max(b.x, cols), c);
    FillIsOk(line, cols, 0, b.x + 1, c);
    hide LineOk, CellOk, Fill;
    WithRowIsOk(b, b.y, Fill(line, b.x, Max(b.x, cols), c), cols, rows, scrollback);
    WithRowIsOk(b, b.y, Fill(line, 0, b.x + 1, c), cols, rows, scrollback);
    EraseRowsIsOk(EraseRight(b, cols, c), b.y + 1, rows, cols, rows, scrollback, c);
    EraseRowsIsOk(EraseLeft(b, c), 0, b.y, cols, rows, scrollback, c);
    EraseRowsIsOk(b, 0, rows, cols, rows, scrollback, c);
    EraseRowsIsOk(b, b.y, b.y + 1, cols, rows, scrollback, c);
  }

  lemma ShiftedLineIsOk(line: Line, cols: int, x: nat, n: nat, c: Cell)
    requires LineOk(line, cols) && x <= |line| && CellOk(c)
    ensures LineOk(ShiftDown(line, x, |line|, n, c), cols)
    ensures LineOk(if x < |line| then ShiftUp(line, x, |line|, n, c) else line + [c], cols)
  {
    hide CellOk;
  }

  lemma LineIsLong(line: Line, cols: int)
    requires LineOk(line, cols)
    ensures cols <= |line|
  {
  }

  lemma CharEditsAreOk(b: Buffer, cols: int, rows: int, scrollback: int, c: Cell, n: nat)
    requires BufferOk(b, cols, rows, scrollback) && CellOk(c)
    ensures BufferOk(InsertChars(b, cols, rows, scrollback, c, n), cols, rows, scrollback)
    ensures BufferOk(DeleteChars(b, cols, rows, scrollback, c, n), cols, rows, scrollback)
    ensures BufferOk(EraseChars(b, cols, rows, scrollback, c, n), cols, rows, scrollback)
  {
    hide LineOk, CellOk, Fill, ShiftDown, ShiftUp;
    var line := VisibleLine(b, b.y);
    LineIsLong(line, cols);
    ShiftedLineIsOk(line, cols, b.x, Min(n, cols - b.x), c);
    ShiftedLineIsOk(line, cols, b.x, n, c);
    FillIsOk(line, cols, b.x, Min(b.x + n, cols), c);
  }

  /** REP keeps the shape exactly when it stays on the screen. */
  lemma RepeatCharIsOk(b: Buffer, cols: int, rows: int, scrollback: int, n: nat)
    requires BufferOk(b, cols, rows, scrollback)
    ensures BufferOk(RepeatChar(b, cols, rows, scrollback, n), cols, rows, scrollback) <==> b.x + n <= cols
  {
    var line := VisibleLine(b, b.y);
    BlankIsOk(cols, DEF_ATTR);
    var copy := if b.x > 0 then line[b.x - 1] else Blank(DEF_ATTR);
    FillIsOk(line, cols, b.x, b.x + n, copy);
    hide LineOk, CellOk, Fill;
    WithRowIsOk(b, b.y, Fill(line, b.x, b.x + n, copy), cols, rows, scrollback);
  }
}
