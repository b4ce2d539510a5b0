/** The splices of `scroll` (static/term.js:942-972) build the scrolled buffer. */
module ScrollSplices {
  import opened Shifts
  import opened Attributes
  import opened Rendering
  import opened Screen
  import opened Damage

  /** The base `scroll` advances to before it looks at the region. */
  function NextBase(b: Buffer, scrollback: int): (base: int)
    requires scrollback >= 2 && 0 <= b.ybase < scrollback
    ensures 1 <= base <= b.ybase + 1
  {
    if b.ybase + 1 == scrollback then scrollback / 2 else b.ybase + 1
  }

  /** The newest lines of a buffer with a blank one spliced in below the region. */
  function GrownLines(b: Buffer, cols: nat, rows: int, base: int): (g: seq<Line>)
    requires 1 <= rows && |b.lines| == b.ybase + rows && 1 <= base <= b.ybase + 1
    requires 0 <= b.scrollBottom < rows
    ensures |g| == base + rows
  {
    Insert(Last(b.lines, base + rows - 1), base + b.scrollBottom, BlankLine(cols, DEF_ATTR))
  }

  lemma GrownAt(b: Buffer, cols: nat, rows: int, base: int, i: nat)
    requires 1 <= rows && |b.lines| == b.ybase + rows && 1 <= base <= b.ybase + 1
    requires 0 <= b.scrollBottom < rows && i < base + rows
    ensures GrownLines(b, cols, rows, base)[i]
         == (if i < base + b.scrollBottom then b.lines[b.ybase + 1 - base + i]
             else if i == base + b.scrollBottom then BlankLine(cols, DEF_ATTR)
             else b.lines[b.ybase - base + i])
  {
    var kept := Last(b.lines, base + rows - 1);
    assert forall k | 0 <= k < |kept| :: kept[k] == b.lines[b.ybase + 1 - base + k];
  }

  /** The splices of `scroll`, one after another. */
  function SplicedScroll(b: Buffer, cols: nat, rows: int, base: int): Buffer
    requires 1 <= rows && |b.lines| == b.ybase + rows && 1 <= base <= b.ybase + 1
    requires 0 <= b.scrollTop <= b.scrollBottom < rows
  {
    var grown := GrownLines(b, cols, rows, base);
    if b.scrollTop == 0 then b.(lines := grown, ybase := base, ydisp := base)
    else b.(lines := Remove(grown, base - 1 + b.scrollTop), ybase := base - 1, ydisp := base - 1)
  }

  lemma SplicedRow(b: Buffer, cols: int, rows: int, scrollback: int, base: int, k: int)
    requires BufferOk(b, cols, rows, scrollback) && 1 <= base <= b.ybase + 1 && 0 <= k < rows
    ensures var spliced := SplicedScroll(b, cols, rows, base);
            && 0 <= spliced.ybase && |spliced.lines| == spliced.ybase + rows
            && VisibleLine(spliced, k) == Shifted(b, cols, rows, scrollback, k)
  {
    GrownAt(b, cols, rows, base, base + k);
    GrownAt(b, cols, rows, base, base - 1 + k);
    hide LineOk, GrownLines;
  }

  lemma SplicedAbove(b: Buffer, cols: int, rows: int, scrollback: int, base: int, i: nat)
    requires BufferOk(b, cols, rows, scrollback) && 1 <= base <= b.ybase + 1
    ensures var spliced := SplicedScroll(b, cols, rows, base);
            && spliced.ybase == (if b.scrollTop == 0 then base else base - 1) && |spliced.lines| == spliced.ybase + rows
            && (i < spliced.ybase ==> spliced.lines[i] == b.lines[b.ybase + 1 - base + i])
  {
    hide LineOk;
    if i < base {
      GrownAt(b, cols, rows, base, i);
    }
    hide GrownLines;
  }

  lemma ScrolledAt(b: Buffer, cols: int, rows: int, scrollback: int, i: nat)
    requires BufferOk(b, cols, rows, scrollback) && scrollback >= 2
    ensures var r, base := Scroll(b, cols, rows, scrollback), NextBase(b, scrollback);
            && r.ybase == (if b.scrollTop == 0 then base else base - 1) && |r.lines| == r.ybase + rows
            && r == b.(lines := r.lines, ybase := r.ybase, ydisp := r.ybase)
            && (i < r.ybase ==> r.lines[i] == b.lines[b.ybase + 1 - base + i])
            && (r.ybase <= i < r.ybase + rows ==> r.lines[i] == Shifted(b, cols, rows, scrollback, i - r.ybase))
  {
    hide LineOk, ShiftUp, ScrolledHistory, Shifted;
    var h := ScrolledHistory(b, scrollback);
    if |h| <= i < |h| + rows {
      ScrollShifts(b, cols, rows, scrollback, i - |h|);
    }
  }

  lemma SplicesScroll(b: Buffer, cols: int, rows: int, scrollback: int)
    requires BufferOk(b, cols, rows, scrollback) && scrollback >= 2
    ensures SplicedScroll(b, cols, rows, NextBase(b, scrollback)) == Scroll(b, cols, rows, scrollback)
  {
    hide LineOk, Scroll, GrownLines, Shifted, NextBase, Remove;
    var base := NextBase(b, scrollback);
    var spliced, r := SplicedScroll(b, cols, rows, base), Scroll(b, cols, rows, scrollback);
    ScrolledAt(b, cols, rows, scrollback, 0);
    forall i | 0 <= i < |r.lines|
      ensures r.lines[i] == spliced.lines[i]
    {
      ScrolledAt(b, cols, rows, scrollback, i);
      SplicedAbove(b, cols, rows, scrollback, base, i);
      if i >= r.ybase {
        SplicedRow(b, cols, rows, scrollback, base, i - r.ybase);
      }
    }
    assert r.lines == spliced.lines;
  }
}
