/**
 The terminal as a state machine over characters: the state, one step per character, runs
 over strings, and the calls a page can make. `Step` follows the switch of `write`
 (static/term.js:991-1955) and the command methods it dispatches to.
 */
module Emulator {
  import opened Options
  import opened Shifts
  import opened Attributes
  import opened Rendering
  import opened TabStops
  import opened Screen

  /** What one terminal never changes: settings, palette, character table and identification strings. */
  datatype Env = Env(
    scrollback: nat,
    palette: Palette,
    lineDrawing: map<char, char>,
    primaryId: string,
    secondaryId: string)

  datatype Mode = Normal | Escaped | Csi | Osc | Charset | Dcs | Ignore

  /** `text` is `currentParam` while that is a string, which it is in OSC texts and in DCS. */
  datatype Parser = Parser(mode: Mode, params: seq<nat>, currentParam: nat, text: string, prefix: string)

  /** The empty map stands for a character set that is null. */
  datatype Charsets = Charsets(tables: seq<map<char, char>>, active: map<char, char>, glevel: int, gcharset: int)

  /** The damage range and the HTML of the row elements. */
  datatype Paint = Paint(start: int, end: int, children: seq<string>)

  datatype State = State(
    env: Env,
    cols: int,
    rows: int,
    buf: Buffer,
    normal: Option<Buffer>,
    curAttr: bv32,
    savedX: int,
    savedY: int,
    savedCols: Option<int>,
    cursorState: bool,
    cursorHidden: bool,
    convertEol: bool,
    charsets: Charsets,
    parser: Parser,
    title: string,
    queue: string,
    paint: Paint)

  const BEL: char := '\U{07}'
  const BS: char := '\U{08}'
  const VT: char := '\U{0B}'
  const FF: char := '\U{0C}'
  const SO: char := '\U{0E}'
  const SI: char := '\U{0F}'
  const ESC: char := '\U{1B}'

  const INITIAL_PARSER := Parser(Normal, [], 0, "", "")
  const INITIAL_CHARSETS := Charsets([map[], map[], map[], map[]], map[], 0, -1)

  // ---------------------------------------------------------------- validity

  ghost predicate EnvOk(env: Env) {
    env.scrollback >= 2 && PaletteOk(env.palette)
  }

  ghost predicate ParserOk(p: Parser, cs: Charsets) {
    |cs.tables| == 4 && (p.mode == Charset ==> 0 <= cs.gcharset < 4)
  }

  /** What rendering needs of a state. */
  ghost predicate Renderable(s: State) {
    && EnvOk(s.env)
    && BufferOk(s.buf, s.cols, s.rows, s.env.scrollback)
    && |s.paint.children| == s.rows
  }

  /** The shape of a terminal between calls. */
  ghost predicate Valid(s: State) {
    && Renderable(s)
    && (s.normal.Some? ==>
          && BufferOk(s.normal.value, s.cols, s.rows, s.env.scrollback)
          && s.normal.value.ydisp == s.normal.value.ybase)
    && AttrOk(s.curAttr)
    && 0 <= s.savedX && 0 <= s.savedY
    && (s.savedCols.Some? ==> 1 <= s.savedCols.value)
    && ParserOk(s.parser, s.charsets)
  }

  /** The shape inside `write`: the view is at the bottom and the damage range lies on the screen. */
  ghost predicate Writing(s: State) {
    Valid(s) && s.buf.ydisp == s.buf.ybase && 0 <= s.paint.start <= s.paint.end < s.rows
  }

  // ---------------------------------------------------------------- painting

  /** The damage range grown to take in a row. */
  function Touched(p: Paint, row: int): Paint {
    p.(start := Min(p.start, row), end := Max(p.end, row))
  }

  function Touch(s: State, row: int): State {
    s.(paint := Touched(s.paint, row))
  }

  function CursorColumn(s: State, k: int): int {
    if k == s.buf.y && s.cursorState && s.buf.ydisp == s.buf.ybase && !s.cursorHidden then s.buf.x else -1
  }

  /** A from-scratch rendering of screen row k. */
  function RenderRow(s: State, k: int): string
    requires Renderable(s) && 0 <= k < s.rows
  {
    RenderLine(s.env.palette, s.buf.lines[k + s.buf.ydisp], s.cols, CursorColumn(s, k))
  }

  function Refresh(s: State, start: int, end: int): (r: State)
    requires Renderable(s) && 0 <= start && end < s.rows
    ensures r == s.(paint := s.paint.(children := r.paint.children)) && |r.paint.children| == s.rows
    ensures forall k | 0 <= k < s.rows ::
              r.paint.children[k] == if start <= k <= end then RenderRow(s, k) else s.paint.children[k]
  {
    s.(paint := s.paint.(children := seq(s.rows, k requires 0 <= k < s.rows =>
         if start <= k <= end then RenderRow(s, k) else s.paint.children[k])))
  }

  function RefreshAll(s: State): State
    requires Renderable(s)
  {
    Refresh(s, 0, s.rows - 1)
  }

  function ShowCursor(s: State): State
    requires Renderable(s)
  {
    if s.cursorState then s else Refresh(s.(cursorState := true), s.buf.y, s.buf.y)
  }

  /** The cursor switched on or off by a focus change or a blink. */
  function SwitchCursor(s: State, on: bool): State
    requires Renderable(s)
  {
    Refresh(s.(cursorState := on), s.buf.y, s.buf.y)
  }

  /** `scrollDisp`: the view moves over the scrollback. */
  function ScrollView(s: State, disp: int): State
    requires Renderable(s)
  {
    RefreshAll(s.(buf := s.buf.(ydisp := Max(0, Min(s.buf.ydisp + disp, s.buf.ybase)))))
  }

  // ---------------------------------------------------------------- resets and buffers

  function FreshBuffer(cols: nat, rows: nat): Buffer {
    Buffer(Repeat(BlankLine(cols, DEF_ATTR), rows), 0, 0, 0, 0, 0, rows - 1, StopsFrom(0, cols))
  }

  /** The constructor run again on an existing terminal; the saved cursor and the damage range survive it. */
  function Reconstruct(s: State): State
    requires 1 <= s.cols && 1 <= s.rows
  {
    s.(buf := FreshBuffer(s.cols, s.rows), normal := None, curAttr := DEF_ATTR,
       cursorState := false, cursorHidden := false, convertEol := false,
       charsets := INITIAL_CHARSETS, parser := INITIAL_PARSER, queue := "")
  }

  /** A new terminal, before it has row elements. */
  function Created(env: Env, cols: nat, rows: nat): State
    requires 1 <= cols && 1 <= rows
  {
    Reconstruct(State(env, cols, rows, FreshBuffer(cols, rows), None, DEF_ATTR, 0, 0, None, false, false, false,
                      INITIAL_CHARSETS, INITIAL_PARSER, "", "", Paint(0, 0, [])))
  }

  /** `open` makes the row elements, paints them and takes the focus. */
  function Opened(s: State): State
    requires 0 <= s.rows && Valid(s.(paint := s.paint.(children := Repeat("", s.rows))))
  {
    ShowCursor(RefreshAll(s.(paint := s.paint.(children := Repeat("", s.rows)))))
  }

  lemma FreshIsOk(s: State)
    requires Valid(s)
    ensures Renderable(Reconstruct(s))
  {
    assert AttrOk(DEF_ATTR);
  }

  function Reset(s: State): State
    requires Valid(s)
  {
    FreshIsOk(s);
    RefreshAll(Reconstruct(s))
  }

  function EnterAlternate(s: State): State
    requires Writing(s)
  {
    if s.normal.Some? then s
    else
      FreshIsOk(s);
      ShowCursor(Reset(s).(normal := Some(s.buf)))
  }

  function LeaveAlternate(s: State): State
    requires Writing(s)
  {
    if s.normal.None? then s
    else ShowCursor(RefreshAll(s.(buf := s.normal.value, normal := None)))
  }

  /** A line cut or padded when the number of columns changes; it is left alone when they stay the same. */
  function FitLine(line: Line, cols: nat, newCols: nat): (r: Line)
    ensures |r|
         == if cols < newCols then Max(|line|, newCols) else if newCols < cols then Min(|line|, newCols) else |line|
    ensures forall i | 0 <= i < |r| :: r[i] == if i < |line| then line[i] else Blank(DEF_ATTR)
  {
    if cols < newCols then line + Repeat(Blank(DEF_ATTR), Max(0, newCols - |line|))
    else if newCols < cols then line[..Min(|line|, newCols)]
    else line
  }

  function FitLines(lines: seq<Line>, cols: nat, newCols: nat): (r: seq<Line>)
    ensures |r| == |lines| && forall i | 0 <= i < |lines| :: r[i] == FitLine(lines[i], cols, newCols)
  {
    seq(|lines|, i requires 0 <= i < |lines| => FitLine(lines[i], cols, newCols))
  }

  /** A sequence cut at n, or padded to length n with v. */
  function Fit<T>(s: seq<T>, n: nat, v: T): (r: seq<T>)
    ensures |r| == n
    ensures forall i | 0 <= i < n :: r[i] == if i < |s| then s[i] else v
  {
    if n <= |s| then s[..n] else s + Repeat(v, n - |s|)
  }

  function StopsAfterResize(tabs: set<int>, cols: int): set<int> {
    tabs + StopsFrom(if cols in tabs then cols else PrevStop(tabs, cols), cols)
  }

  function ResizeBuffer(b: Buffer, cols: int, rows: int, newCols: int, newRows: int): Buffer
    requires 1 <= cols && 1 <= rows && 1 <= newCols && 1 <= newRows && 0 <= b.ybase
  {
    b.(lines := Fit(FitLines(b.lines, cols, newCols), b.ybase + newRows, BlankLine(newCols, DEF_ATTR)),
       x := Min(b.x, newCols - 1), y := Min(b.y, newRows - 1),
       scrollTop := 0, scrollBottom := newRows - 1,
       tabs := StopsAfterResize(b.tabs, cols))
  }

  function Resized(s: State, cols: int, rows: int): State
    requires Valid(s) && 1 <= cols && 1 <= rows
  {
    s.(cols := cols, rows := rows, buf := ResizeBuffer(s.buf, s.cols, s.rows, cols, rows), normal := None,
       paint := s.paint.(children := Fit(s.paint.children, rows, "")))
  }

  lemma ResizedIsOk(s: State, cols: int, rows: int)
    requires Valid(s) && 1 <= cols && 1 <= rows
    ensures Renderable(Resized(s, cols, rows))
  {
    assert AttrOk(DEF_ATTR);
  }

  function Resize(s: State, x: int, y: int): State
    requires Valid(s)
  {
    var cols, rows := Max(x, 1), Max(y, 1);
    ResizedIsOk(s, cols, rows);
    RefreshAll(Resized(s, cols, rows))
  }

  // ---------------------------------------------------------------- small commands

  function To(s: State, x: int, y: int): State {
    s.(buf := s.buf.(x := x, y := y))
  }

  function InMode(s: State, mode: Mode): State {
    s.(parser := s.parser.(mode := mode))
  }

  function SetGLevel(cs: Charsets, g: int): (r: Charsets)
    requires |cs.tables| == 4 && 0 <= g < 4
    ensures |r.tables| == 4 && r.gcharset == cs.gcharset
  {
    cs.(glevel := g, active := cs.tables[g])
  }

  function SetGCharset(cs: Charsets, g: int, table: map<char, char>): (r: Charsets)
    requires |cs.tables| == 4 && 0 <= g < 4
    ensures |r.tables| == 4 && r.gcharset == cs.gcharset
  {
    cs.(tables := cs.tables[g := table], active := if cs.glevel == g then table else cs.active)
  }

  function AllAscii(cs: Charsets): (r: Charsets)
    requires |cs.tables| == 4
    ensures |r.tables| == 4 && r.gcharset == cs.gcharset
  {
    SetGCharset(SetGCharset(SetGCharset(SetGCharset(cs, 0, map[]), 1, map[]), 2, map[]), 3, map[])
  }

  function IndexLine(s: State): State
    requires Writing(s)
  {
    var s' := s.(buf := Index(s.buf, s.cols, s.rows, s.env.scrollback));
    if s.buf.y + 1 > s.buf.scrollBottom then Touch(Touch(s', s.buf.scrollTop), s.buf.scrollBottom) else s'
  }

  function ReverseIndexLine(s: State): State
    requires Writing(s)
  {
    var s' := s.(buf := ReverseIndex(s.buf, s.cols, s.rows, s.env.scrollback, s.curAttr));
    if s.buf.y - 1 < s.buf.scrollTop then Touch(Touch(s', s.buf.scrollTop), s.buf.scrollBottom) else s'
  }

  /** The pending wrap of a full line, carried out before the next character. */
  function Wrap(s: State): State
    requires Writing(s)
  {
    if s.buf.x >= s.cols then IndexLine(To(s, 0, s.buf.y)) else s
  }

  lemma IndexLineIsOk(s: State)
    requires Writing(s)
    ensures Writing(IndexLine(s))
    ensures IndexLine(s).buf.x == s.buf.x
  {
    IndexIsOk(s.buf, s.cols, s.rows, s.env.scrollback);
    hide BufferOk, LineOk, PaletteOk, AttrOk, Scroll;
    assert BufferOk(s.buf, s.cols, s.rows, s.env.scrollback);
  }

  lemma WrapIsOk(s: State)
    requires Writing(s)
    ensures Writing(Wrap(s)) && Wrap(s).buf.x < s.cols
    ensures Wrap(s) == s.(buf := Wrap(s).buf, paint := Wrap(s).paint)
  {
    assert Writing(To(s, 0, s.buf.y));
    IndexLineIsOk(To(s, 0, s.buf.y));
    hide LineOk, PaletteOk, AttrOk, Index;
  }

  function Print(s: State, ch: char): State
    requires Writing(s)
  {
    WrapIsOk(s);
    hide Wrap, LineOk, PaletteOk, AttrOk;
    var ch' := if ch in s.charsets.active then s.charsets.active[ch] else ch;
    var s' := Wrap(s);
    Touch(s'.(buf := PutCell(s'.buf, s.cols, s.rows, s.env.scrollback, Cell(s.curAttr, ch'))), s'.buf.y)
  }

  // ---------------------------------------------------------------- CSI commands

  function Count(ps: seq<nat>): nat
    requires |ps| > 0
  {
    Max(1, ps[0])
  }

  /** The cursor-moving commands. */
  predicate IsMove(f: char) {
    'A' <= f <= 'I' || f == 'Z' || f == '`' || f == 'a' || ('d' <= f <= 'f') || f == 'u'
  }

  /** Where they put the cursor. CHA and cursor restoring do not clamp. */
  function Target(s: State, f: char, ps: seq<nat>): (int, int)
    requires |ps| > 0
  {
    var n, x, y := Count(ps), s.buf.x, s.buf.y;
    var right, bottom := s.cols - 1, s.rows - 1;
    if f == 'A' then (x, Max(0, y - n))
    else if f == 'B' || f == 'e' then (x, Min(y + n, bottom))
    else if f == 'C' || f == 'a' then (Min(x + n, right), y)
    else if f == 'D' then (Max(0, x - n), y)
    else if f == 'E' then (0, Min(y + n, bottom))
    else if f == 'F' then (0, Max(0, y - n))
    else if f == 'G' then (n - 1, y)
    else if f == 'H' then (if |ps| >= 2 then Min(Max(1, ps[1]) - 1, right) else 0, Min(n - 1, bottom))
    else if f == 'I' then (ForwardTabs(s.buf.tabs, s.cols, x, n), y)
    else if f == 'Z' then (BackTabs(s.buf.tabs, x, n), y)
    else if f == '`' then (Min(n - 1, right), y)
    else if f == 'd' then (x, Min(n - 1, bottom))
    else if f == 'f' then (if |ps| >= 2 then Min(Max(1, ps[1]) - 1, right) else NAN_COLUMN, Min(n - 1, bottom))
    else (s.savedX, s.savedY)
  }

  function Move(s: State, f: char, ps: seq<nat>): State
    requires |ps| > 0
  {
    var (x, y) := Target(s, f, ps);
    To(s, x, y)
  }

  /** The commands that edit lines. */
  predicate IsEdit(f: char) {
    f == '@' || f == 'J' || f == 'K' || f == 'L' || f == 'M' || f == 'P' || f == 'S' || f == 'T' || f == 'X' || f == 'b'
  }

  function EditBuffer(
    b: Buffer, cols: int, rows: int, sb: int, attr: bv32, prefix: string, f: char, ps: seq<nat>): Buffer
    requires BufferOk(b, cols, rows, sb) && |ps| > 0
  {
    var c := Blank(attr);
    if f == 'J' then EraseInDisplay(b, cols, rows, sb, c, ps[0])
    else if f == 'K' then EraseInLine(b, cols, rows, sb, c, ps[0])
    else if f == '@' then InsertChars(b, cols, rows, sb, c, Count(ps))
    else if f == 'L' then InsertLines(b, cols, rows, sb, attr, Count(ps))
    else if f == 'M' then DeleteLines(b, cols, rows, sb, attr, Count(ps))
    else if f == 'P' then DeleteChars(b, cols, rows, sb, c, Count(ps))
    else if f == 'X' then EraseChars(b, cols, rows, sb, c, Count(ps))
    else if f == 'S' then ScrollUp(b, cols, rows, sb, Count(ps))
    else if f == 'T' then (if |ps| < 2 && prefix == "" then ScrollDown(b, cols, rows, sb, Count(ps)) else b)
    else RepeatChar(b, cols, rows, sb, Count(ps))
  }

  function EditedBuffer(s: State, f: char, ps: seq<nat>): Buffer
    requires Writing(s) && |ps| > 0
  {
    EditBuffer(s.buf, s.cols, s.rows, s.env.scrollback, s.curAttr, s.parser.prefix, f, ps)
  }

  /** The rows an editing command reports as changed, as a first and a last one. ICH, DCH, ECH and REP report none. */
  function EditDamage(s: State, f: char, ps: seq<nat>): Option<(int, int)>
    requires |ps| > 0
  {
    var b := s.buf;
    if f == 'J' && ps[0] == 0 then Some((b.y, s.rows - 1))
    else if f == 'J' && ps[0] == 1 then Some((0, b.y))
    else if f == 'J' && ps[0] == 2 then Some((0, s.rows - 1))
    else if f == 'K' && ps[0] <= 2 then Some((b.y, b.y))
    else if f == 'L' || f == 'M' then Some((b.y, b.scrollBottom))
    else if f == 'S' || (f == 'T' && |ps| < 2 && s.parser.prefix == "") then Some((b.scrollTop, b.scrollBottom))
    else None
  }

  function Damaged(p: Paint, rows: Option<(int, int)>): Paint {
    match rows
    case None => p
    case Some((first, last)) => Touched(Touched(p, first), last)
  }

  function Edit(s: State, f: char, ps: seq<nat>): State
    requires Writing(s) && |ps| > 0
  {
    s.(buf := EditedBuffer(s, f, ps), paint := Damaged(s.paint, EditDamage(s, f, ps)))
  }

  predicate IsAlternate(p: nat) {
    p in {47, 1047, 1049}
  }

  /** One parameter of SM. After a buffer switch the rest of the list no longer has its prefix. */
  function SetMode(s: State, p: nat): State
    requires Writing(s)
  {
    if s.parser.prefix != "?" then s
    else if p == 2 then s.(charsets := AllAscii(s.charsets))
    else if p == 3 then
      var t := s.(savedCols := Some(s.cols));
      Resize(t, 132, s.rows)
    else if p == 25 then s.(cursorHidden := false)
    else if IsAlternate(p) then EnterAlternate(s)
    else s
  }

  function ResetMode(s: State, p: nat): State
    requires Writing(s)
  {
    if s.parser.prefix != "?" then s
    else if p == 3 then
      (if s.cols == 132 && s.savedCols.Some? then Resize(s, s.savedCols.value, s.rows) else s).(savedCols := None)
    else if p == 25 then s.(cursorHidden := true)
    else if IsAlternate(p) then LeaveAlternate(s)
    else s
  }

  lemma ResizeIsValid(s: State, x: int, y: int)
    requires Valid(s)
    ensures Valid(Resize(s, x, y))
    ensures Writing(s) && y == s.rows ==> Writing(Resize(s, x, y))
  {
    ResizedIsOk(s, Max(x, 1), Max(y, 1));
  }

  lemma SwitchIsValid(s: State)
    requires Writing(s)
    ensures Writing(Reset(s)) && Writing(EnterAlternate(s)) && Writing(LeaveAlternate(s))
  {
    FreshIsOk(s);
    assert AttrOk(DEF_ATTR);
  }

  lemma WideModeIsValid(s: State)
    requires Writing(s) && s.parser.prefix == "?"
    ensures Writing(SetMode(s, 3))
  {
    assert s.cols >= 1;
    hide LineOk, PaletteOk, AttrOk, BufferOk, Resize;
    ResizeIsValid(s.(savedCols := Some(s.cols)), 132, s.rows);
  }

  lemma SetModeIsValid(s: State, p: nat)
    requires Writing(s)
    ensures Writing(SetMode(s, p))
  {
    hide LineOk, PaletteOk, AttrOk, BufferOk, Resize, EnterAlternate, AllAscii;
    if s.parser.prefix == "?" {
      if p == 3 {
        WideModeIsValid(s);
      } else if IsAlternate(p) {
        SwitchIsValid(s);
      }
    }
  }

  lemma ResetModeIsValid(s: State, p: nat)
    requires Writing(s)
    ensures Writing(ResetMode(s, p))
  {
    hide LineOk, PaletteOk, AttrOk, BufferOk, Resize, LeaveAlternate;
    if s.parser.prefix == "?" && p == 3 {
      if s.savedCols.Some? {
        ResizeIsValid(s, s.savedCols.value, s.rows);
      }
    } else if s.parser.prefix == "?" && IsAlternate(p) {
      SwitchIsValid(s);
    }
  }

  function SetModes(s: State, ps: seq<nat>): State
    requires Writing(s)
    decreases |ps|
  {
    if ps == [] then s
    else
      SetModeIsValid(s, ps[0]);
      SetModes(SetMode(s, ps[0]), ps[1..])
  }

  function ResetModes(s: State, ps: seq<nat>): State
    requires Writing(s)
    decreases |ps|
  {
    if ps == [] then s
    else
      ResetModeIsValid(s, ps[0]);
      ResetModes(ResetMode(s, ps[0]), ps[1..])
  }

  function Or(p: nat, default: int): int {
    if p == 0 then default else p
  }

  function RegionTop(ps: seq<nat>): int
    requires |ps| > 0
  {
    Or(ps[0], 1) - 1
  }

  function RegionBottom(rows: int, ps: seq<nat>): int {
    (if |ps| > 1 then Or(ps[1], rows) else rows) - 1
  }

  function ClearTabs(tabs: set<int>, x: int, p: nat): set<int> {
    if p == 0 then tabs - {x} else if p == 3 then {} else tabs
  }

  function Digit(d: nat): char
    requires d < 10
  {
    '0' + d as char
  }

  function Decimal(n: nat): string
    decreases n
  {
    if n < 10 then [Digit(n)] else Decimal(n / 10) + [Digit(n % 10)]
  }

  function CursorReport(x: nat, y: nat): string {
    Decimal(y + 1) + ";" + Decimal(x + 1) + "R"
  }

  /** DSR: the queue of replies after a status request. */
  function Reported(queue: string, x: nat, y: nat, prefix: string, p: nat): string {
    if prefix == "" && p == 5 then queue + ([ESC] + "[0n")
    else if prefix == "" && p == 6 then queue + ([ESC] + "[" + CursorReport(x, y))
    else if prefix == "?" && p == 6 then queue + ([ESC] + "[?" + CursorReport(x, y))
    else queue
  }

  /** DA. */
  function Identified(queue: string, env: Env, prefix: string, p: nat): string {
    if p == 0 && prefix == "" then queue + env.primaryId
    else if p == 0 && prefix == ">" then queue + env.secondaryId
    else queue
  }

  /** Whether a final character is the soft reset, CSI ! p. */
  predicate IsSoftReset(prefix: string, f: char) {
    f == 'p' && prefix == "!"
  }

  /** DECSTBM, TBC and the soft reset on the buffer. */
  function SetBuffer(b: Buffer, rows: int, prefix: string, f: char, ps: seq<nat>): Buffer
    requires |ps| > 0
  {
    if f == 'r' && prefix == "" then
      b.(scrollTop := RegionTop(ps), scrollBottom := RegionBottom(rows, ps), x := 0, y := 0)
    else if f == 'g' then b.(tabs := ClearTabs(b.tabs, b.x, ps[0]))
    else if IsSoftReset(prefix, f) then b.(scrollTop := 0, scrollBottom := rows - 1, x := 0, y := 0)
    else b
  }

  /**
   The commands that set one thing: SGR, reports, saved cursor, region, tab stops, soft reset. Unknown ones change
   nothing.
   */
  function Set(s: State, f: char, ps: seq<nat>): State
    requires |ps| > 0 && 0 <= s.buf.x && 0 <= s.buf.y
  {
    var soft := IsSoftReset(s.parser.prefix, f);
    s.(buf := SetBuffer(s.buf, s.rows, s.parser.prefix, f, ps),
       curAttr := if f == 'm' then Pack(Restyle(Unpack(s.curAttr), ps)) else if soft then DEF_ATTR else s.curAttr,
       queue := if f == 'n' then Reported(s.queue, s.buf.x, s.buf.y, s.parser.prefix, ps[0])
                else if f == 'c' then Identified(s.queue, s.env, s.parser.prefix, ps[0])
                else s.queue,
       savedX := if f == 's' then s.buf.x else s.savedX,
       savedY := if f == 's' then s.buf.y else s.savedY,
       cursorHidden := !soft && s.cursorHidden,
       charsets := if soft then s.charsets.(tables := INITIAL_CHARSETS.tables, active := map[], glevel := 0)
                   else s.charsets)
  }

  /** A complete control sequence with its final character. */
  function Execute(s: State, f: char, ps: seq<nat>): State
    requires Writing(s) && |ps| > 0
  {
    if IsMove(f) then Move(s, f, ps)
    else if IsEdit(f) then Edit(s, f, ps)
    else if f == 'h' then SetModes(s, ps)
    else if f == 'l' then ResetModes(s, ps)
    else Set(s, f, ps)
  }

  // ---------------------------------------------------------------- one step

  predicate IsLineFeed(ch: char) {
    ch == '\n' || ch == VT || ch == FF
  }

  function StepNormal(s: State, ch: char): (t: State)
    requires Writing(s)
    ensures ch < ' ' && !IsLineFeed(ch) ==>
              t == s.(buf := s.buf.(x := t.buf.x), charsets := t.charsets, parser := t.parser)
  {
    assert |s.charsets.tables| == 4;
    hide Writing, IndexLine, Print, NextStop, SetGLevel;
    if IsLineFeed(ch) then IndexLine(if s.convertEol then To(s, 0, s.buf.y) else s)
    else if ch == '\r' then To(s, 0, s.buf.y)
    else if ch == BS then To(s, Max(0, s.buf.x - 1), s.buf.y)
    else if ch == '\t' then To(s, NextStop(s.buf.tabs, s.cols, s.buf.x), s.buf.y)
    else if ch == SO then s.(charsets := SetGLevel(s.charsets, 1))
    else if ch == SI then s.(charsets := SetGLevel(s.charsets, 0))
    else if ch == ESC then InMode(s, Escaped)
    else if ch >= ' ' then Print(s, ch)
    else s
  }

  /** Escape sequences that work on the screen. */
  predicate IsScreenEscape(ch: char) {
    ch == 'c' || ch == 'D' || ch == 'E' || ch == 'M'
  }

  function ScreenEscape(s: State, ch: char): State
    requires Writing(s)
  {
    if ch == 'c' then Reset(s)
    else if ch == 'E' then InMode(IndexLine(To(s, 0, s.buf.y)), Normal)
    else if ch == 'D' then InMode(IndexLine(s), Normal)
    else InMode(ReverseIndexLine(s), Normal)
  }

  predicate Designates(ch: char) {
    '(' <= ch <= '/' && ch != ','
  }

  /** Single and locking shifts leave the state `escaped`. */
  predicate SelectsLevel(ch: char) {
    ch == 'N' || ch == 'O' || ch == 'n' || ch == 'o' || ch == '|' || ch == '}' || ch == '~'
  }

  function EscapeParser(p: Parser, ch: char): Parser {
    if ch == '[' then Parser(Csi, [], 0, "", p.prefix)
    else if ch == ']' then Parser(Osc, [], 0, "", p.prefix)
    else if ch == 'P' then Parser(Dcs, [], 0, "", p.prefix)
    else if ch == '_' || ch == '^' then p.(mode := Ignore)
    else if Designates(ch) then p.(mode := Charset)
    else if SelectsLevel(ch) then p
    else p.(mode := Normal)
  }

  function EscapeCharsets(cs: Charsets, ch: char): (r: Charsets)
    requires |cs.tables| == 4
    ensures |r.tables| == 4 && (Designates(ch) ==> 0 <= r.gcharset < 4)
  {
    if ch == '%' then SetGCharset(SetGLevel(cs, 0), 0, map[])
    else if ch == '(' then cs.(gcharset := 0)
    else if ch == ')' || ch == '-' then cs.(gcharset := 1)
    else if ch == '*' || ch == '.' then cs.(gcharset := 2)
    else if ch == '+' || ch == '/' then cs.(gcharset := 3)
    else if ch == 'n' || ch == '}' then SetGLevel(cs, 2)
    else if ch == 'o' || ch == '|' then SetGLevel(cs, 3)
    else if ch == '~' then SetGLevel(cs, 1)
    else cs
  }

  function EscapeBuffer(b: Buffer, savedX: int, savedY: int, ch: char): Buffer {
    if ch == '8' then b.(x := savedX, y := savedY)
    else if ch == 'H' then b.(tabs := b.tabs + {b.x})
    else b
  }

  /** What they do to cursor, tab stops and saved cursor. */
  function EscapedScreen(s: State, ch: char): State {
    s.(buf := EscapeBuffer(s.buf, s.savedX, s.savedY, ch),
       savedX := if ch == '7' then s.buf.x else s.savedX,
       savedY := if ch == '7' then s.buf.y else s.savedY)
  }

  /** All other escape sequences. */
  function SettingEscape(s: State, ch: char): State
    requires |s.charsets.tables| == 4
  {
    EscapedScreen(s, ch).(parser := EscapeParser(s.parser, ch), charsets := EscapeCharsets(s.charsets, ch))
  }

  function StepEscaped(s: State, ch: char): State
    requires Writing(s)
  {
    if IsScreenEscape(ch) then ScreenEscape(s, ch) else SettingEscape(s, ch)
  }

  /** All tables but the line-drawing one are null in the source. */
  function StepCharset(s: State, ch: char): (t: State)
    requires Writing(s) && s.parser.mode == Charset
    ensures t == s.(parser := t.parser, charsets := t.charsets)
  {
    var cs := SetGCharset(s.charsets, s.charsets.gcharset, if ch == '0' then s.env.lineDrawing else map[]);
    s.(charsets := cs.(gcharset := -1), parser := s.parser.(mode := Normal))
  }

  predicate IsDigit(ch: char) {
    '0' <= ch <= '9'
  }

  function WithDigit(n: nat, ch: char): nat
    requires IsDigit(ch)
  {
    n * 10 + (ch as int - '0' as int)
  }

  function OscParser(p: Parser, ch: char): Parser {
    if ch == ESC || ch == BEL then p.(mode := Normal, params := [], currentParam := 0, text := "")
    else if p.params != [] then p.(text := p.text + [ch])
    else if IsDigit(ch) then p.(currentParam := WithDigit(p.currentParam, ch))
    else if ch == ';' then p.(params := [p.currentParam], currentParam := 0)
    else p
  }

  function StepOsc(s: State, ch: char): State {
    var p := s.parser;
    s.(parser := OscParser(p, ch),
       title := if (ch == ESC || ch == BEL) && p.params != [] && p.params[0] <= 2 && p.text != "" then p.text
                else s.title)
  }

  predicate IsPrefix(ch: char) {
    ch == '?' || ch == '>' || ch == '!'
  }

  predicate IsPostfix(ch: char) {
    ch == '$' || ch == '"' || ch == ' ' || ch == '\''
  }

  function StepCsi(s: State, ch: char): State
    requires Writing(s)
  {
    var p := s.parser;
    if IsPrefix(ch) then s.(parser := p.(prefix := [ch]))
    else if IsDigit(ch) then s.(parser := p.(currentParam := WithDigit(p.currentParam, ch)))
    else if IsPostfix(ch) then s
    else
      var ps := p.params + [p.currentParam];
      if ch == ';' then s.(parser := p.(params := ps, currentParam := 0))
      else
        var s' := Execute(s.(parser := p.(mode := Normal, params := ps, currentParam := 0)), ch, ps);
        s'.(parser := s'.parser.(prefix := ""))
  }

  /** The reply to a status request; the code never marks a request as valid. */
  function StatusReply(text: string, scrollTop: nat, scrollBottom: nat): string {
    if text == "\"q" then "0\"q"
    else if text == "\"p" then "61\"p"
    else if text == "r" then Decimal(scrollTop + 1) + ";" + Decimal(scrollBottom + 1) + "r"
    else if text == "m" then "0m"
    else ""
  }

  function DcsReply(queue: string, prefix: string, text: string, scrollTop: nat, scrollBottom: nat): string {
    if prefix == "$q" then queue + ([ESC] + "P0$r" + StatusReply(text, scrollTop, scrollBottom) + [ESC] + "\\")
    else if prefix == "+q" then queue + ([ESC] + "P0+r" + (if text == "" then "0" else text) + [ESC] + "\\")
    else queue
  }

  function DcsParser(p: Parser, ch: char): Parser {
    if ch == ESC || ch == BEL then p.(mode := Normal, currentParam := 0, text := "", prefix := "")
    else if p.text != "" then p.(text := p.text + [ch])
    else if (p.prefix == "" && ch != '$' && ch != '+') || |p.prefix| == 2 then p.(text := [ch])
    else p.(prefix := p.prefix + [ch])
  }

  function StepDcs(s: State, ch: char): State
    requires Writing(s)
  {
    s.(parser := DcsParser(s.parser, ch),
       queue := if ch != ESC && ch != BEL then s.queue
                else DcsReply(s.queue, s.parser.prefix, s.parser.text, s.buf.scrollTop, s.buf.scrollBottom))
  }

  function StepIgnore(s: State, ch: char): State {
    if ch == ESC || ch == BEL then InMode(s, Normal) else s
  }

  function Step(s: State, ch: char): State
    requires Writing(s)
  {
    match s.parser.mode
    case Normal => StepNormal(s, ch)
    case Escaped => StepEscaped(s, ch)
    case Csi => StepCsi(s, ch)
    case Osc => StepOsc(s, ch)
    case Charset => StepCharset(s, ch)
    case Dcs => StepDcs(s, ch)
    case Ignore => StepIgnore(s, ch)
  }

  /** How many characters a step takes: ESC / is read twice, and some introducers swallow the next character. */
  function Advance(mode: Mode, ch: char): nat {
    match mode
    case Escaped => if ch == '/' then 0 else if ch == '%' || ch == '#' then 2 else 1
    case Charset => if ch == '/' then 2 else 1
    case Osc => if ch == ESC then 2 else 1
    case Dcs => if ch == ESC then 2 else 1
    case Ignore => if ch == ESC then 2 else 1
    case _ => 1
  }

  function Drop<T>(s: seq<T>, n: nat): seq<T> {
    if n <= |s| then s[n..] else []
  }

  // ---------------------------------------------------------------- runs

  function EscapedRank(s: State): nat {
    if s.parser.mode == Escaped then 1 else 0
  }

  /** A run of steps. It stops early in the first state that has lost its shape. */
  ghost function Run(s: State, data: string): State
    requires Writing(s)
    decreases |data|, EscapedRank(s)
  {
    hide LineOk, PaletteOk, AttrOk, BufferOk, StepNormal, StepCsi, StepOsc, StepCharset, StepDcs, StepIgnore;
    if data == [] then s
    else
      var s' := Step(s, data[0]);
      if Writing(s') then Run(s', Drop(data, Advance(s.parser.mode, data[0]))) else s'
  }

  /** `write` begins: the damage range is the cursor row, or everything if the view was scrolled back. */
  function Begin(s: State): (r: State)
    requires Valid(s)
    ensures Writing(r)
  {
    hide LineOk, PaletteOk, AttrOk;
    var s' := s.(paint := s.paint.(start := s.buf.y, end := s.buf.y));
    if s.buf.ybase != s.buf.ydisp then
      s'.(buf := s.buf.(ydisp := s.buf.ybase), paint := s.paint.(start := 0, end := s.rows - 1))
    else s'
  }

  /** `write` ends: the cursor row joins the damage range and the range is repainted. */
  function Finish(s: State): State
    requires Writing(s)
  {
    var s' := Touch(s, s.buf.y);
    Refresh(s', s'.paint.start, s'.paint.end)
  }

  ghost function Write(s: State, data: string): State
    requires Valid(s)
  {
    hide LineOk, PaletteOk, AttrOk, Run, Refresh;
    var s' := Run(Begin(s), data);
    if Writing(s') then Finish(s') else s'
  }

  // ---------------------------------------------------------------- guards

  /** The commands that do not clamp, and what they need in order to keep the shape. */
  predicate GuardCsi(s: State, f: char, ps: seq<nat>)
    requires |ps| > 0
  {
    if f == 'G' then ps[0] <= s.cols + 1
    else if f == 'f' then |ps| >= 2
    else if f == 'u' then s.savedX <= s.cols && s.savedY < s.rows
    else if f == 'b' then s.buf.x + Count(ps) <= s.cols
    else if f == 'r' && s.parser.prefix == "" then 0 <= RegionTop(ps) <= RegionBottom(s.rows, ps) < s.rows
    else true
  }

  predicate Guard(s: State, ch: char) {
    if s.parser.mode == Csi && !IsPrefix(ch) && !IsDigit(ch) && !IsPostfix(ch) && ch != ';' then
      GuardCsi(s, ch, s.parser.params + [s.parser.currentParam])
    else if s.parser.mode == Escaped && ch == '8' then s.savedX <= s.cols && s.savedY < s.rows
    else true
  }

  /** Every step of the run meets its guard. */
  ghost predicate Guarded(s: State, data: string)
    requires Writing(s)
    decreases |data|, EscapedRank(s)
  {
    hide LineOk, PaletteOk, AttrOk, BufferOk, StepNormal, StepCsi, StepOsc, StepCharset, StepDcs, StepIgnore, Guard;
    data != [] ==>
      && Guard(s, data[0])
      && var s' := Step(s, data[0]);
         Writing(s') ==> Guarded(s', Drop(data, Advance(s.parser.mode, data[0])))
  }
}
