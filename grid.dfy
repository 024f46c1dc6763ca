/**
  Rectangular grids as sequences of rows, the value view of the nested lists
  `h_lines`, `v_lines` and `box_owners` of the Dots and Boxes engine, and the
  counting function that relates the per-player scores to the owner grid.
 */
module Grid {

  /** `g` has exactly `height` rows of `width` cells each. */
  predicate IsGrid<T>(g: seq<seq<T>>, height: int, width: int) {
    |g| == height && forall i :: 0 <= i < |g| ==> |g[i]| == width
  }

  /** A `height` by `width` grid holding `x` everywhere (a nested list comprehension). */
  function Fill<T>(height: nat, width: nat, x: T): (g: seq<seq<T>>)
    ensures IsGrid(g, height, width)
    ensures forall i, j :: 0 <= i < height && 0 <= j < width ==> g[i][j] == x
  {
    seq(height, _ => seq(width, _ => x))
  }

  /** The grid `g` with the one cell `g[r][c]` replaced by `x`. */
  function Set<T>(g: seq<seq<T>>, r: int, c: int, x: T): (g': seq<seq<T>>)
    requires 0 <= r < |g| && 0 <= c < |g[r]|
    ensures |g'| == |g| && forall i :: 0 <= i < |g| ==> |g'[i]| == |g[i]|
    ensures forall i, j :: 0 <= i < |g| && 0 <= j < |g[i]| ==>
              g'[i][j] == if i == r && j == c then x else g[i][j]
  {
    g[r := g[r][c := x]]
  }

  /** Every cell of `g` is true (Python's `all(all(row) for row in g)`). */
  predicate AllTrue(g: seq<seq<bool>>) {
    forall i, j :: 0 <= i < |g| && 0 <= j < |g[i]| ==> g[i][j]
  }

  /** Two grids with the same shape and the same cells are equal. */
  lemma Ext<T>(x: seq<seq<T>>, y: seq<seq<T>>)
    requires |x| == |y| && forall i :: 0 <= i < |x| ==> |x[i]| == |y[i]|
    requires forall i, j :: 0 <= i < |x| && 0 <= j < |x[i]| ==> x[i][j] == y[i][j]
    ensures x == y
  {
    forall i | 0 <= i < |x| ensures x[i] == y[i] {
      assert forall j :: 0 <= j < |x[i]| ==> x[i][j] == y[i][j];
    }
  }

  /** The number of cells of `row` equal to `p`. */
  function CountRow(row: seq<int>, p: int): (n: nat)
    ensures n <= |row|
  {
    if row == [] then 0 else (if row[0] == p then 1 else 0) + CountRow(row[1..], p)
  }

  /** The number of cells of the grid `g` equal to `p`. */
  function Count(g: seq<seq<int>>, p: int): nat {
    if g == [] then 0 else CountRow(g[0], p) + Count(g[1..], p)
  }

  /** Overwriting one cell changes the count of `p` by what left and what arrived. */
  lemma {:induction false} CountRowSet(row: seq<int>, c: int, x: int, p: int)
    requires 0 <= c < |row|
    ensures CountRow(row[c := x], p)
            == CountRow(row, p) - (if row[c] == p then 1 else 0) + (if x == p then 1 else 0)
  {
    if c == 0 {
      assert row[c := x][1..] == row[1..];
    } else {
      assert row[c := x][1..] == row[1..][c - 1 := x];
      CountRowSet(row[1..], c - 1, x, p);
    }
  }

  /** `Count` changes under `Set` by exactly the cell that was replaced. */
  lemma {:induction false} CountSet(g: seq<seq<int>>, r: int, c: int, x: int, p: int)
    requires 0 <= r < |g| && 0 <= c < |g[r]|
    ensures Count(Set(g, r, c, x), p)
            == Count(g, p) - (if g[r][c] == p then 1 else 0) + (if x == p then 1 else 0)
  {
    var g' := Set(g, r, c, x);
    if r == 0 {
      assert g'[0] == g[0][c := x];
      assert g'[1..] == g[1..];
      CountRowSet(g[0], c, x, p);
    } else {
      assert g'[0] == g[0];
      assert g'[1..] == Set(g[1..], r - 1, c, x);
      CountSet(g[1..], r - 1, c, x, p);
    }
  }

  /** A value that occurs nowhere in a row is counted zero times. */
  lemma {:induction false} CountRowAbsent(row: seq<int>, p: int)
    requires forall j :: 0 <= j < |row| ==> row[j] != p
    ensures CountRow(row, p) == 0
  {
    if row != [] {
      CountRowAbsent(row[1..], p);
    }
  }

  /** A value that occurs nowhere in a grid is counted zero times. */
  lemma {:induction false} CountAbsent(g: seq<seq<int>>, p: int)
    requires forall i, j :: 0 <= i < |g| && 0 <= j < |g[i]| ==> g[i][j] != p
    ensures Count(g, p) == 0
  {
    if g != [] {
      CountRowAbsent(g[0], p);
      CountAbsent(g[1..], p);
    }
  }

  /** In a row whose cells are all 0, 1 or 2, the three counts add up to its length. */
  lemma {:induction false} CountRowPartition(row: seq<int>)
    requires forall j :: 0 <= j < |row| ==> 0 <= row[j] <= 2
    ensures CountRow(row, 0) + CountRow(row, 1) + CountRow(row, 2) == |row|
  {
    if row != [] {
      CountRowPartition(row[1..]);
    }
  }

  /** In a grid whose cells are all 0, 1 or 2, the three counts add up to its area. */
  lemma {:induction false} CountPartition(g: seq<seq<int>>, width: nat)
    requires IsGrid(g, |g|, width)
    requires forall i, j :: 0 <= i < |g| && 0 <= j < |g[i]| ==> 0 <= g[i][j] <= 2
    ensures Count(g, 0) + Count(g, 1) + Count(g, 2) == |g| * width
  {
    if g != [] {
      CountRowPartition(g[0]);
      CountPartition(g[1..], width);
      assert |g| * width == width + (|g| - 1) * width;
    }
  }
}
