/** What `resize` keeps, what it adds, and what a round trip gives back. */
module Resizing {
  import opened Options
  import opened Shifts
  import opened Attributes
  import opened Rendering
  import opened TabStops
  import opened Screen
  import opened Emulator
  import opened Shape
  import opened Damage

  lemma LinesInside(s: State)
    requires Valid(s)
    ensures 1 <= s.cols && 1 <= s.rows && |s.buf.lines| == s.buf.ybase + s.rows && 0 <= s.buf.ydisp <= s.buf.ybase
    ensures 0 <= s.buf.y < s.rows && 0 <= s.buf.x <= s.cols
    ensures forall i | 0 <= i < |s.buf.lines| :: |s.buf.lines[i]| >= s.cols
  {
    hide PaletteOk, AttrOk;
  }

  /**
   The base stays and there are rows for exactly the new screen. Every line that is still there, scrolled off or
   visible, keeps its cells as far as it reaches; all other cells are blank in the default colours.
   */
  lemma ResizeKeepsOverlap(s: State, x: int, y: int)
    requires Valid(s)
    ensures var r, was := Resize(s, x, y), s.buf.lines;
            && Valid(r) && r.cols == Max(x, 1) && r.rows == Max(y, 1) && r.normal == None
            && r.buf.ybase == s.buf.ybase && r.buf.ydisp == s.buf.ydisp && |r.buf.lines| == s.buf.ybase + r.rows
            && (forall i | 0 <= i < |r.buf.lines| ::
                  && |r.buf.lines[i]| >= r.cols
                  && forall c | 0 <= c < |r.buf.lines[i]| ::
                       r.buf.lines[i][c] == if i < |was| && c < |was[i]| then was[i][c] else Blank(DEF_ATTR))
  {
    hide PaletteOk, AttrOk, RenderRow, StopsAfterResize, LineOk, BufferOk;
    ResizeIsValid(s, x, y);
    LinesInside(s);
    LinesInside(Resize(s, x, y));
  }

  /** A narrower screen cuts every line at its width, overlong ones too. */
  lemma ShrinkingCutsAtTheWidth(s: State, x: int, y: int)
    requires Valid(s) && Max(x, 1) < s.cols
    ensures var r := Resize(s, x, y); forall i | 0 <= i < |r.buf.lines| :: |r.buf.lines[i]| == Max(x, 1)
  {
    hide PaletteOk, AttrOk, RenderRow, StopsAfterResize, LineOk, BufferOk;
    LinesInside(s);
  }

  /**
   Growing in both directions and shrinking back restores the first cols cells of every line, scrolled off or
   visible, the base, the view and the cursor, except that a pending wrap is lost.
   */
  lemma GrowThenShrink(s: State, x: int, y: int)
    requires Valid(s) && s.cols <= x && s.rows <= y
    ensures Valid(Resize(s, x, y))
    ensures var r := Resize(Resize(s, x, y), s.cols, s.rows);
            && Valid(r) && r.cols == s.cols && r.rows == s.rows && |r.buf.lines| == |s.buf.lines|
            && r.buf == s.buf.(lines := r.buf.lines, x := Min(s.buf.x, s.cols - 1),
                               scrollTop := 0, scrollBottom := s.rows - 1, tabs := r.buf.tabs)
            && forall i | 0 <= i < |s.buf.lines| ::
                 && s.cols <= |r.buf.lines[i]| && s.cols <= |s.buf.lines[i]|
                 && r.buf.lines[i][..s.cols] == s.buf.lines[i][..s.cols]
  {
    hide Valid, Resize;
    LinesInside(s);
    ResizeKeepsOverlap(s, x, y);
    var big := Resize(s, x, y);
    ResizeKeepsOverlap(big, s.cols, s.rows);
    var r := Resize(big, s.cols, s.rows);
    LinesInside(r);
    ResizePlaces(s, x, y);
    ResizePlaces(big, s.cols, s.rows);
    forall i | 0 <= i < |s.buf.lines|
      ensures r.buf.lines[i][..s.cols] == s.buf.lines[i][..s.cols]
    {
      forall c | 0 <= c < s.cols
        ensures r.buf.lines[i][c] == s.buf.lines[i][c]
      {
        GrownCell(s, x, y, i, c);
      }
    }
  }

  lemma GrownCell(s: State, x: int, y: int, i: nat, c: nat)
    requires Valid(s) && s.cols <= x && s.rows <= y && i < |s.buf.lines| && c < s.cols
    ensures Valid(Resize(s, x, y))
    ensures var big := Resize(s, x, y);
            && i < |big.buf.lines| && c < |big.buf.lines[i]| && c < |s.buf.lines[i]|
            && big.buf.lines[i][c] == s.buf.lines[i][c]
  {
    hide Valid, Resize;
    LinesInside(s);
    ResizeKeepsOverlap(s, x, y);
  }

  /** Only the buffer, the sizes, the page and the saved main buffer change; the cursor stays on the screen. */
  lemma ResizePlaces(s: State, x: int, y: int)
    requires Valid(s)
    ensures var r := Resize(s, x, y);
            && r == s.(cols := Max(x, 1), rows := Max(y, 1), buf := r.buf, normal := None, paint := r.paint)
            && r.buf == s.buf.(lines := r.buf.lines, x := Min(s.buf.x, Max(x, 1) - 1), y := Min(s.buf.y, Max(y, 1) - 1),
                               scrollTop := 0, scrollBottom := Max(y, 1) - 1, tabs := r.buf.tabs)
  {
    hide PaletteOk, AttrOk, RenderRow, StopsAfterResize, LineOk, BufferOk, Fit, FitLines;
    ResizedIsOk(s, Max(x, 1), Max(y, 1));
  }

  /** Only the first cols cells of a line matter to its rendering. */
  lemma RenderPrefix(p: Palette, a: Line, b: Line, cols: nat, x: int)
    requires PaletteOk(p) && LineOk(a, cols) && LineOk(b, cols) && a[..cols] == b[..cols]
    ensures RenderLine(p, a, cols, x) == RenderLine(p, b, cols, x)
  {
    forall i | 0 <= i < cols
      ensures a[i] == b[i]
    {
      assert a[i] == a[..cols][i] && b[i] == b[..cols][i];
    }
    assert Marked(a, cols, x) == Marked(b, cols, x);
  }

  /** After that round trip the page shows what it would have shown before, unless a wrap was pending. */
  lemma GrowThenShrinkShows(s: State, x: int, y: int)
    requires Valid(s) && s.cols <= x && s.rows <= y && s.buf.x < s.cols
    ensures Valid(Resize(s, x, y))
    ensures var r := Resize(Resize(s, x, y), s.cols, s.rows);
            |r.paint.children| == s.rows && forall k | 0 <= k < s.rows :: r.paint.children[k] == RenderRow(s, k)
  {
    hide Valid, Resize, RenderRow;
    GrowThenShrink(s, x, y);
    ResizeInSync(Resize(s, x, y), s.cols, s.rows);
    var r := Resize(Resize(s, x, y), s.cols, s.rows);
    ResizePlaces(s, x, y);
    ResizePlaces(Resize(s, x, y), s.cols, s.rows);
    ValidRenders(s);
    ValidRenders(r);
    forall k | 0 <= k < s.rows
      ensures RenderRow(s, k) == RenderRow(r, k)
    {
      SameRowText(s, r, k);
    }
  }

  lemma SameRowText(s: State, r: State, k: nat)
    requires Valid(s) && Valid(r) && k < s.rows == r.rows && s.cols == r.cols && s.env == r.env
    requires s.cursorState == r.cursorState && s.cursorHidden == r.cursorHidden
    requires s.buf.x == r.buf.x && s.buf.y == r.buf.y
    requires s.buf.ybase == r.buf.ybase && s.buf.ydisp == r.buf.ydisp && |s.buf.lines| == |r.buf.lines|
    requires forall i | 0 <= i < |s.buf.lines| ::
               && s.cols <= |r.buf.lines[i]| && s.cols <= |s.buf.lines[i]|
               && r.buf.lines[i][..s.cols] == s.buf.lines[i][..s.cols]
    ensures RenderRow(s, k) == RenderRow(r, k)
  {
    hide PaletteOk, AttrOk, RenderLine, LineOk;
    var i := k + s.buf.ydisp;
    assert 0 <= i < |s.buf.lines|;
    RenderPrefix(s.env.palette, s.buf.lines[i], r.buf.lines[i], s.cols, CursorColumn(s, k));
  }

  /** Growing in two steps gives the same lines as growing at once. */
  lemma GrowTwice(s: State, x: int, y: int, x': int, y': int)
    requires Valid(s) && s.cols <= x <= x' && s.rows <= y <= y'
    ensures Valid(Resize(s, x, y)) && Resize(Resize(s, x, y), x', y').buf.lines == Resize(s, x', y').buf.lines
  {
    hide PaletteOk, AttrOk, RenderRow, StopsAfterResize, LineOk, BufferOk;
    LinesInside(s);
    ResizeIsValid(s, x, y);
    var twice, once := Resize(Resize(s, x, y), x', y').buf.lines, Resize(s, x', y').buf.lines;
    forall i | 0 <= i < |once|
      ensures twice[i] == once[i]
    {
    }
  }

  /** `setupStops` runs before the new width is stored, so columns beyond the old width get no stops. */
  lemma NoStopsInNewColumns(s: State, x: int, y: int, c: int)
    requires Valid(s) && s.cols <= c
    ensures c in Resize(s, x, y).buf.tabs <==> c in s.buf.tabs
  {
    hide PaletteOk, AttrOk, RenderRow, LineOk, BufferOk, Fit, FitLines;
    LinesInside(s);
    ResizedIsOk(s, Max(x, 1), Max(y, 1));
  }

  /**
   The stops after a resize: the old ones, and every eighth column from the last old stop up to the old width, or from
   column 0 if there is none; with a stop in the column of the old width itself nothing is added.
   */
  lemma StopsAdded(s: State, x: int, y: int, c: int)
    requires Valid(s)
    ensures c in Resize(s, x, y).buf.tabs <==>
              || c in s.buf.tabs
              || (s.cols !in s.buf.tabs
                  && exists last :: IsLastStop(s.buf.tabs, s.cols, last) && last <= c < s.cols && (c - last) % 8 == 0)
  {
    hide PaletteOk, AttrOk, RenderRow, LineOk, BufferOk, Fit, FitLines;
    LinesInside(s);
    ResizedIsOk(s, Max(x, 1), Max(y, 1));
    PrevStopIsGreatest(s.buf.tabs, s.cols);
    var last := PrevStop(s.buf.tabs, s.cols);
    assert IsLastStop(s.buf.tabs, s.cols, last);
    forall other | IsLastStop(s.buf.tabs, s.cols, other)
      ensures other == last
    {
    }
  }

  /** The last stop left of a column, or column 0. */
  predicate IsLastStop(tabs: set<int>, x: int, last: int) {
    && 0 <= last < Max(x, 1) && (last == 0 || last in tabs)
    && forall i | last < i < x :: i !in tabs
  }
}
