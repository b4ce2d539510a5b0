/** Tab stops: a set of columns, searched forwards and backwards (static/term.js:2344-2373). */
module TabStops {

  /** The first stop right of x on the screen, or the last column. */
  function NextStop(tabs: set<int>, cols: int, x: int): int
    decreases cols - x
  {
    if x + 1 >= cols then cols - 1
    else if x + 1 in tabs then x + 1
    else NextStop(tabs, cols, x + 1)
  }

  /** The first stop left of x, or column 0. */
  function PrevStop(tabs: set<int>, x: int): int
    decreases x
  {
    if x - 1 <= 0 then 0
    else if x - 1 in tabs then x - 1
    else PrevStop(tabs, x - 1)
  }

  /** Every eighth column from a starting one. */
  function StopsFrom(start: int, cols: int): set<int> {
    set i | start <= i < cols && EveryEighth(start, i)
  }

  predicate EveryEighth(start: int, i: int) {
    (i - start) % 8 == 0
  }

  /** One more stop, eight columns on. */
  lemma StopsMore(start: int, i: int)
    requires start <= i && EveryEighth(start, i)
    ensures StopsFrom(start, i + 8) == StopsFrom(start, i) + {i} && EveryEighth(start, i + 8)
  {
  }

  /** No stop lies between the last one on the screen and the next one. */
  lemma StopsEnd(start: int, i: int, cols: int)
    requires start <= i && EveryEighth(start, i) && cols <= i && (i == start || i - 8 < cols)
    ensures StopsFrom(start, i) == StopsFrom(start, cols)
  {
  }

  lemma NoStops(start: int)
    ensures StopsFrom(start, start) == {} && EveryEighth(start, start)
  {
  }

  function ForwardTabs(tabs: set<int>, cols: int, x: int, n: nat): int
    decreases n
  {
    if n == 0 then x else ForwardTabs(tabs, cols, NextStop(tabs, cols, x), n - 1)
  }

  function BackTabs(tabs: set<int>, x: int, n: nat): int
    decreases n
  {
    if n == 0 then x else BackTabs(tabs, PrevStop(tabs, x), n - 1)
  }

  predicate IsStop(tabs: set<int>, cols: int, x: int) {
    0 <= x < cols && x in tabs
  }

  /** NextStop is the least stop right of x on the screen; without one it is the last column. */
  lemma {:induction false} NextStopIsLeast(tabs: set<int>, cols: int, x: int)
    requires 0 <= x <= cols && 1 <= cols
    ensures var r := NextStop(tabs, cols, x);
            && 0 <= r < cols
            && (forall k | x < k < r :: k !in tabs)
            && (r == cols - 1 || (x < r && r in tabs))
    ensures x < cols - 1 ==> x < NextStop(tabs, cols, x)
    decreases cols - x
  {
    if x + 1 < cols && x + 1 !in tabs {
      NextStopIsLeast(tabs, cols, x + 1);
    }
  }

  /** PrevStop is the greatest stop left of x; without one it is column 0. */
  lemma {:induction false} PrevStopIsGreatest(tabs: set<int>, x: int)
    requires 0 <= x
    ensures var r := PrevStop(tabs, x);
            && 0 <= r <= Max0(x - 1)
            && (forall k | r < k < x :: k !in tabs)
            && (r == 0 || r in tabs)
    decreases x
  {
    if x > 1 && x - 1 !in tabs {
      PrevStopIsGreatest(tabs, x - 1);
    }
  }

  function Max0(n: int): int {
    if n < 0 then 0 else n
  }

  lemma {:induction false} ForwardTabsStayOnScreen(tabs: set<int>, cols: int, x: int, n: nat)
    requires 0 <= x <= cols && 1 <= cols
    ensures 0 <= ForwardTabs(tabs, cols, x, n) <= cols
    ensures n > 0 ==> ForwardTabs(tabs, cols, x, n) < cols
    decreases n
  {
    if n > 0 {
      NextStopIsLeast(tabs, cols, x);
      ForwardTabsStayOnScreen(tabs, cols, NextStop(tabs, cols, x), n - 1);
    }
  }

  lemma {:induction false} BackTabsStayOnScreen(tabs: set<int>, x: int, n: nat)
    requires 0 <= x
    ensures 0 <= BackTabs(tabs, x, n) <= x
    decreases n
  {
    if n > 0 {
      PrevStopIsGreatest(tabs, x);
      BackTabsStayOnScreen(tabs, PrevStop(tabs, x), n - 1);
    }
  }

  /** Forward tabbing saturates: from the last column it stays there, whatever the stops are. */
  lemma {:induction false} ForwardTabsSaturate(tabs: set<int>, cols: int, n: nat)
    requires 1 <= cols
    ensures ForwardTabs(tabs, cols, cols - 1, n) == cols - 1
    decreases n
  {
    if n > 0 {
      ForwardTabsSaturate(tabs, cols, n - 1);
    }
  }

  /** The stops strictly right of x on the screen. */
  function StopsRight(tabs: set<int>, cols: int, x: int): set<int> {
    set k | k in tabs && x < k < cols
  }

  /** One step forward from a stop, and one step back, is the identity when there is a stop to go to. */
  lemma NextThenPrev(tabs: set<int>, cols: int, x: int)
    requires 1 <= cols && (IsStop(tabs, cols, x) || x == 0)
    requires StopsRight(tabs, cols, x) != {}
    ensures IsStop(tabs, cols, NextStop(tabs, cols, x))
    ensures x < NextStop(tabs, cols, x)
    ensures PrevStop(tabs, NextStop(tabs, cols, x)) == x
    ensures StopsRight(tabs, cols, NextStop(tabs, cols, x))
         == StopsRight(tabs, cols, x) - {NextStop(tabs, cols, x)}
  {
    var s :| s in StopsRight(tabs, cols, x);
    var r := NextStop(tabs, cols, x);
    NextStopIsLeast(tabs, cols, x);
    assert r <= s;
    assert r in tabs by {
      if r == cols - 1 {
        assert s == r;
      }
    }
    PrevStopIsGreatest(tabs, r);
    var p := PrevStop(tabs, r);
    assert x <= p;
    assert p == x;
  }

  lemma {:induction false} BackTabsLast(tabs: set<int>, x: int, n: nat)
    ensures BackTabs(tabs, x, n + 1) == PrevStop(tabs, BackTabs(tabs, x, n))
    decreases n
  {
    if n > 0 {
      BackTabsLast(tabs, PrevStop(tabs, x), n - 1);
    }
  }

  /** n tabs forward and n tabs back, from a stop (or column 0) with n stops to its right. */
  lemma {:induction false} TabsThereAndBack(tabs: set<int>, cols: int, x: int, n: nat)
    requires 1 <= cols && (IsStop(tabs, cols, x) || x == 0)
    requires |StopsRight(tabs, cols, x)| >= n
    ensures BackTabs(tabs, ForwardTabs(tabs, cols, x, n), n) == x
    decreases n
  {
    if n > 0 {
      NextThenPrev(tabs, cols, x);
      var r := NextStop(tabs, cols, x);
      assert r in StopsRight(tabs, cols, x);
      TabsThereAndBack(tabs, cols, r, n - 1);
      BackTabsLast(tabs, ForwardTabs(tabs, cols, x, n), n - 1);
    }
  }
}
