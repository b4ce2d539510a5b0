/**
 Closed forms for the splice loops of the terminal: a window [lo, hi) of a sequence moves
 by n places, loses what leaves the window and is filled up with a given value.
 The same two forms describe lines of a screen and cells of a line.
 */
module Shifts {

  function Repeat<T>(v: T, n: nat): (r: seq<T>)
    ensures |r| == n && forall i | 0 <= i < n :: r[i] == v
  {
    seq(n, _ => v)
  }

  /** JavaScript's `s.splice(i, 0, v)`. */
  function Insert<T>(s: seq<T>, i: nat, v: T): (r: seq<T>)
    requires i <= |s|
    ensures |r| == |s| + 1
  {
    s[..i] + [v] + s[i..]
  }

  /** JavaScript's `s.splice(i, 1)`, which does nothing at or past the end. */
  function Remove<T>(s: seq<T>, i: nat): (r: seq<T>)
    ensures |r| == if i < |s| then |s| - 1 else |s|
  {
    if i < |s| then s[..i] + s[i + 1..] else s
  }

  function Min(a: int, b: int): int {
    if a <= b then a else b
  }

  function Max(a: int, b: int): int {
    if a <= b then b else a
  }

  /** The window moves towards its end; its first places receive v. */
  function ShiftDown<T>(s: seq<T>, lo: nat, hi: nat, n: nat, v: T): (r: seq<T>)
    requires lo <= hi <= |s|
    ensures |r| == |s|
    ensures forall i {:trigger r[i]} | 0 <= i < |s| ::
              r[i] == if i < lo || hi <= i then s[i] else if i < lo + n then v else s[i - n]
  {
    var m := Min(n, hi - lo);
    s[..lo] + Repeat(v, m) + s[lo..hi - m] + s[hi..]
  }

  /** The window moves towards its start; its last places receive v. */
  function ShiftUp<T>(s: seq<T>, lo: nat, hi: nat, n: nat, v: T): (r: seq<T>)
    requires lo <= hi <= |s|
    ensures |r| == |s|
    ensures forall i {:trigger r[i]} | 0 <= i < |s| ::
              r[i] == if i < lo || hi <= i then s[i] else if hi - n <= i then v else s[i + n]
  {
    var m := Min(n, hi - lo);
    s[..lo] + s[lo + m..hi] + Repeat(v, m) + s[hi..]
  }

  /** Shifting one place at a time adds up. */
  lemma ShiftDownMore<T>(s: seq<T>, lo: nat, hi: nat, n: nat, v: T)
    requires lo <= hi <= |s|
    ensures ShiftDown(ShiftDown(s, lo, hi, n, v), lo, hi, 1, v) == ShiftDown(s, lo, hi, n + 1, v)
  {
    var once, more := ShiftDown(s, lo, hi, n, v), ShiftDown(s, lo, hi, n + 1, v);
    forall i | 0 <= i < |s|
      ensures ShiftDown(once, lo, hi, 1, v)[i] == more[i]
    {
      if lo + 1 <= i < hi {
        assert once[i - 1] == if i - 1 < lo + n then v else s[i - 1 - n];
      }
    }
  }

  lemma ShiftUpMore<T>(s: seq<T>, lo: nat, hi: nat, n: nat, v: T)
    requires lo <= hi <= |s|
    ensures ShiftUp(ShiftUp(s, lo, hi, n, v), lo, hi, 1, v) == ShiftUp(s, lo, hi, n + 1, v)
  {
    var once, more := ShiftUp(s, lo, hi, n, v), ShiftUp(s, lo, hi, n + 1, v);
    forall i | 0 <= i < |s|
      ensures ShiftUp(once, lo, hi, 1, v)[i] == more[i]
    {
      if lo <= i < hi - 1 {
        assert once[i + 1] == if hi - n <= i + 1 then v else s[i + 1 + n];
      }
    }
  }

  /** A splice that inserts at lo and removes at hi, in either order of the two places. */
  lemma InsertThenRemove<T>(s: seq<T>, lo: nat, hi: nat, v: T)
    requires lo <= hi <= |s|
    ensures Remove(Insert(s, lo, v), hi) == ShiftDown(s, lo, hi, 1, v)
    ensures Remove(Insert(s, hi, v), lo) == ShiftUp(s, lo, hi, 1, v)
  {
    var down, up := Insert(s, lo, v), Insert(s, hi, v);
    forall i | 0 <= i < |s|
      ensures Remove(down, hi)[i] == ShiftDown(s, lo, hi, 1, v)[i]
      ensures Remove(up, lo)[i] == ShiftUp(s, lo, hi, 1, v)[i]
    {
    }
  }

  /** A splice that removes first and then inserts inside the same window. */
  lemma RemoveThenInsert<T>(s: seq<T>, lo: nat, hi: nat, v: T)
    requires lo < hi <= |s|
    ensures Insert(Remove(s, lo), hi - 1, v) == ShiftUp(s, lo, hi, 1, v)
    ensures Insert(Remove(s, hi - 1), lo, v) == ShiftDown(s, lo, hi, 1, v)
  {
    var up, down := Remove(s, lo), Remove(s, hi - 1);
    forall i | 0 <= i < |s|
      ensures Insert(up, hi - 1, v)[i] == ShiftUp(s, lo, hi, 1, v)[i]
      ensures Insert(down, lo, v)[i] == ShiftDown(s, lo, hi, 1, v)[i]
    {
    }
  }

  /**
   Deleting what was inserted gives back everything that did not fall off the window,
   and leaves the filler of the second operation in the rest of it.
   */
  lemma {:induction false} ShiftDownThenUp<T>(s: seq<T>, lo: nat, hi: nat, n: nat, v: T, w: T)
    requires lo <= hi <= |s|
    ensures var r := ShiftUp(ShiftDown(s, lo, hi, n, v), lo, hi, n, w);
            && |r| == |s|
            && (forall i {:trigger r[i]} | 0 <= i < |s| ::
                  r[i] == if lo <= i < hi && hi - n <= i then w else s[i])
  {
    var down := ShiftDown(s, lo, hi, n, v);
    forall i | lo <= i < hi - n
      ensures ShiftUp(down, lo, hi, n, w)[i] == s[i]
    {
      assert down[i + n] == s[i];
    }
  }

  lemma {:induction false} ShiftUpThenDown<T>(s: seq<T>, lo: nat, hi: nat, n: nat, v: T, w: T)
    requires lo <= hi <= |s|
    ensures var r := ShiftDown(ShiftUp(s, lo, hi, n, v), lo, hi, n, w);
            && |r| == |s|
            && (forall i {:trigger r[i]} | 0 <= i < |s| ::
                  r[i] == if lo <= i < hi && i < lo + n then w else s[i])
  {
    var up := ShiftUp(s, lo, hi, n, v);
    forall i | lo + n <= i < hi
      ensures ShiftDown(up, lo, hi, n, w)[i] == s[i]
    {
      assert up[i - n] == s[i];
    }
  }

  /** Two shifts by n and m places are one shift by n + m. */
  lemma ShiftsAdd<T>(s: seq<T>, lo: nat, hi: nat, n: nat, m: nat, v: T)
    requires lo <= hi <= |s|
    ensures ShiftDown(ShiftDown(s, lo, hi, n, v), lo, hi, m, v) == ShiftDown(s, lo, hi, n + m, v)
    ensures ShiftUp(ShiftUp(s, lo, hi, n, v), lo, hi, m, v) == ShiftUp(s, lo, hi, n + m, v)
  {
    var down, up := ShiftDown(s, lo, hi, n, v), ShiftUp(s, lo, hi, n, v);
    forall i | 0 <= i < |s|
      ensures ShiftDown(down, lo, hi, m, v)[i] == ShiftDown(s, lo, hi, n + m, v)[i]
      ensures ShiftUp(up, lo, hi, m, v)[i] == ShiftUp(s, lo, hi, n + m, v)[i]
    {
      if lo + m <= i < hi {
        assert down[i - m] == if i - m < lo + n then v else s[i - m - n];
      }
      if lo <= i < hi - m {
        assert up[i + m] == if hi - n <= i + m then v else s[i + m + n];
      }
    }
  }
}
