/** One round of each splice loop of the editing commands (static/term.js:2450-2466, 2831-2959, 3502-3523). */
module EditSplices {
  import opened Shifts
  import opened Attributes
  import opened Rendering
  import opened Screen

  lemma ShiftNothing<T>(s: seq<T>, lo: nat, hi: nat, v: T)
    requires lo <= hi <= |s|
    ensures ShiftDown(s, lo, hi, 0, v) == s && ShiftUp(s, lo, hi, 0, v) == s
  {
  }

  /** One more shift of a window of the lines, by a pair of splices. */
  lemma DownByInserting<T>(s: seq<T>, lo: nat, hi: nat, n: nat, v: T)
    requires lo <= hi <= |s|
    ensures Remove(Insert(ShiftDown(s, lo, hi, n, v), lo, v), hi) == ShiftDown(s, lo, hi, n + 1, v)
  {
    InsertThenRemove(ShiftDown(s, lo, hi, n, v), lo, hi, v);
    ShiftDownMore(s, lo, hi, n, v);
  }

  lemma UpByInserting<T>(s: seq<T>, lo: nat, hi: nat, n: nat, v: T)
    requires lo <= hi <= |s|
    ensures Remove(Insert(ShiftUp(s, lo, hi, n, v), hi, v), lo) == ShiftUp(s, lo, hi, n + 1, v)
  {
    InsertThenRemove(ShiftUp(s, lo, hi, n, v), lo, hi, v);
    ShiftUpMore(s, lo, hi, n, v);
  }

  lemma UpByRemoving<T>(s: seq<T>, lo: nat, hi: nat, n: nat, v: T)
    requires lo < hi <= |s|
    ensures Insert(Remove(ShiftUp(s, lo, hi, n, v), lo), hi - 1, v) == ShiftUp(s, lo, hi, n + 1, v)
  {
    RemoveThenInsert(ShiftUp(s, lo, hi, n, v), lo, hi, v);
    ShiftUpMore(s, lo, hi, n, v);
  }

  lemma DownByRemoving<T>(s: seq<T>, lo: nat, hi: nat, n: nat, v: T)
    requires lo < hi <= |s|
    ensures Insert(Remove(ShiftDown(s, lo, hi, n, v), hi - 1), lo, v) == ShiftDown(s, lo, hi, n + 1, v)
  {
    RemoveThenInsert(ShiftDown(s, lo, hi, n, v), lo, hi, v);
    ShiftDownMore(s, lo, hi, n, v);
  }

  /** IL inserts at the cursor and removes below the region, wherever the cursor is. */
  lemma InsertLinesRound(b: Buffer, cols: int, rows: int, scrollback: int, attr: bv32, n: nat)
    requires BufferOk(b, cols, rows, scrollback)
    ensures InsertLines(b, cols, rows, scrollback, attr, 0) == b
    ensures var b', v := InsertLines(b, cols, rows, scrollback, attr, n), BlankLine(cols, attr);
            && b.ybase + b.scrollBottom + 1 <= |b'.lines| && b.ybase + b.y <= |b'.lines| == |b.lines|
            && b'.(lines := Remove(Insert(b'.lines, b.ybase + b.y, v), b.ybase + b.scrollBottom + 1))
               == InsertLines(b, cols, rows, scrollback, attr, n + 1)
  {
    hide LineOk, ShiftDown, ShiftUp, Insert, Remove, BlankLine;
    var row, end, v := b.ybase + b.y, b.ybase + b.scrollBottom + 1, BlankLine(cols, attr);
    if row < end {
      ShiftNothing(b.lines, row, end, v);
      DownByInserting(b.lines, row, end, n, v);
    } else {
      ShiftNothing(b.lines, end, row, v);
      UpByInserting(b.lines, end, row, n, v);
    }
  }

  /** DL inserts below the region and removes at the cursor. */
  lemma DeleteLinesRound(b: Buffer, cols: int, rows: int, scrollback: int, attr: bv32, n: nat)
    requires BufferOk(b, cols, rows, scrollback)
    ensures DeleteLines(b, cols, rows, scrollback, attr, 0) == b
    ensures var b', v := DeleteLines(b, cols, rows, scrollback, attr, n), BlankLine(cols, attr);
            && b.ybase + b.scrollBottom + 1 <= |b'.lines| == |b.lines|
            && b'.(lines := Remove(Insert(b'.lines, b.ybase + b.scrollBottom + 1, v), b.ybase + b.y))
               == DeleteLines(b, cols, rows, scrollback, attr, n + 1)
  {
    hide LineOk, ShiftDown, ShiftUp, Insert, Remove, BlankLine;
    var row, end, v := b.ybase + b.y, b.ybase + b.scrollBottom + 1, BlankLine(cols, attr);
    if row < end {
      ShiftNothing(b.lines, row, end, v);
      UpByInserting(b.lines, row, end, n, v);
    } else {
      ShiftNothing(b.lines, end, row, v);
      DownByInserting(b.lines, end, row, n, v);
    }
  }

  /** SU and SD remove at one margin and insert at the other. */
  lemma ScrollRound(b: Buffer, cols: int, rows: int, scrollback: int, n: nat)
    requires BufferOk(b, cols, rows, scrollback)
    ensures ScrollUp(b, cols, rows, scrollback, 0) == b && ScrollDown(b, cols, rows, scrollback, 0) == b
    ensures var top, bottom, v := b.ybase + b.scrollTop, b.ybase + b.scrollBottom, BlankLine(cols, DEF_ATTR);
            var up, down := ScrollUp(b, cols, rows, scrollback, n), ScrollDown(b, cols, rows, scrollback, n);
            && |up.lines| == |down.lines| == |b.lines| && top <= bottom < |b.lines|
            && up.(lines := Insert(Remove(up.lines, top), bottom, v)) == ScrollUp(b, cols, rows, scrollback, n + 1)
            && down.(lines := Insert(Remove(down.lines, bottom), top, v))
               == ScrollDown(b, cols, rows, scrollback, n + 1)
  {
    hide LineOk, ShiftDown, ShiftUp, Insert, Remove, BlankLine;
    var top, end, v := b.ybase + b.scrollTop, b.ybase + b.scrollBottom + 1, BlankLine(cols, DEF_ATTR);
    ShiftNothing(b.lines, top, end, v);
    UpByRemoving(b.lines, top, end, n, v);
    DownByRemoving(b.lines, top, end, n, v);
  }

  /** RI at or above the top margin is one round of IL. */
  lemma ReverseRound(b: Buffer, cols: int, rows: int, scrollback: int, attr: bv32)
    requires BufferOk(b, cols, rows, scrollback) && b.y - 1 < b.scrollTop
    ensures ReverseIndex(b, cols, rows, scrollback, attr) == InsertLines(b, cols, rows, scrollback, attr, 1)
  {
    hide LineOk, ShiftDown, ShiftUp, BlankLine;
  }

  /** ICH inserts a cell and pops the last one. */
  lemma InsertCharsRound(line: Line, x: nat, k: nat, c: Cell)
    requires x + k < |line|
    ensures ShiftDown(line, x, |line|, 0, c) == line
    ensures var grown := Insert(ShiftDown(line, x, |line|, k, c), x + k, c);
            grown[..|grown| - 1] == ShiftDown(line, x, |line|, k + 1, c)
  {
    ShiftNothing(line, x, |line|, c);
    var t := ShiftDown(line, x, |line|, k, c);
    var grown := Insert(t, x + k, c);
    forall i | 0 <= i < |line|
      ensures grown[i] == ShiftDown(line, x, |line|, k + 1, c)[i]
    {
    }
  }

  /** What DCH makes of a line with n rounds: at the very end of the line only the first one matters. */
  function Shortened(line: Line, x: nat, n: nat, c: Cell): Line
    requires x <= |line|
  {
    if n == 0 then line
    else if x < |line| then ShiftUp(line, x, |line|, n, c)
    else line + [c]
  }

  lemma DeleteCharsRound(line: Line, x: nat, n: nat, c: Cell)
    requires x <= |line|
    ensures Remove(Shortened(line, x, n, c), x) + [c] == Shortened(line, x, n + 1, c)
  {
    hide ShiftUp;
    ShiftNothing(line, x, |line|, c);
    if x < |line| {
      var t := ShiftUp(line, x, |line|, n, c);
      UpByRemoving(line, x, |line|, n, c);
      assert Insert(Remove(t, x), |line| - 1, c) == Remove(t, x) + [c];
    }
  }
}
