/** Two-dimensional images as values, with the shape kept explicitly (a numpy array of
    shape (0, n) still has n columns), and the bridge from Dafny's `array2` to those values. */
module Grids {
  import opened Common

  /** A row-major image: `px[i][j]` is the pixel at row `i`, column `j`. */
  datatype Grid<T> = Grid(rows: nat, cols: nat, px: seq<seq<T>>) {
    predicate Valid() {
      |px| == rows && forall i :: 0 <= i < rows ==> |px[i]| == cols
    }
  }

  predicate SameShape<S, T>(a: Grid<S>, b: Grid<T>) {
    a.Valid() && b.Valid() && a.rows == b.rows && a.cols == b.cols
  }

  predicate SameShape3<S, T, U>(a: Grid<S>, b: Grid<T>, c: Grid<U>) {
    SameShape(a, b) && SameShape(a, c)
  }

  /** The image whose pixel (i, j) is `f(i, j)`. */
  function Build<T>(rows: nat, cols: nat, f: (nat, nat) --> T): (g: Grid<T>)
    requires forall i: nat, j: nat :: i < rows && j < cols ==> f.requires(i, j)
    ensures g.Valid() && g.rows == rows && g.cols == cols
    ensures forall i, j :: 0 <= i < rows && 0 <= j < cols ==> g.px[i][j] == f(i, j)
  {
    Grid(rows, cols, seq(rows, (i: int) requires 0 <= i < rows =>
      seq(cols, (j: int) requires 0 <= j < cols => f(i, j))))
  }

  /** Two images of one shape that agree on every pixel are the same image. */
  lemma Ext<T>(g: Grid<T>, h: Grid<T>)
    requires SameShape(g, h)
    requires forall i, j :: 0 <= i < g.rows && 0 <= j < g.cols ==> g.px[i][j] == h.px[i][j]
    ensures g == h
  {
    forall i | 0 <= i < g.rows
      ensures g.px[i] == h.px[i]
    {
    }
  }

  /** The current contents of a two-dimensional array. */
  function Snapshot<T>(a: array2<T>): (g: Grid<T>)
    reads a
    ensures g.Valid() && g.rows == a.Length0 && g.cols == a.Length1
    ensures forall i, j :: 0 <= i < a.Length0 && 0 <= j < a.Length1 ==> g.px[i][j] == a[i, j]
  {
    Grid(a.Length0, a.Length1, seq(a.Length0, (i: int) requires 0 <= i < a.Length0 reads a =>
      seq(a.Length1, (j: int) requires 0 <= j < a.Length1 reads a => a[i, j])))
  }

  /** The contents of a (rows, cols, 3) array read as one RGB triple per pixel. */
  function ColorSnapshot(c: array3<real>): (g: Grid<Rgb<real>>)
    requires c.Length2 == 3
    reads c
    ensures g.Valid() && g.rows == c.Length0 && g.cols == c.Length1
    ensures forall i, j :: 0 <= i < c.Length0 && 0 <= j < c.Length1 ==>
      g.px[i][j] == Rgb(c[i, j, 0], c[i, j, 1], c[i, j, 2])
  {
    Grid(c.Length0, c.Length1, seq(c.Length0, (i: int) requires 0 <= i < c.Length0 reads c =>
      seq(c.Length1, (j: int) requires 0 <= j < c.Length1 reads c =>
        Rgb(c[i, j, 0], c[i, j, 1], c[i, j, 2]))))
  }

  // ---------------------------------------------------------------------------
  // Counting the pixels a boolean image selects: the `np.where(...)[0].size` of the source.

  function CountRow(row: seq<bool>): (n: nat)
    ensures n <= |row|
  {
    if row == [] then 0 else CountRow(row[..|row| - 1]) + (if row[|row| - 1] then 1 else 0)
  }

  function CountRows(rows: seq<seq<bool>>): nat {
    if rows == [] then 0 else CountRows(rows[..|rows| - 1]) + CountRow(rows[|rows| - 1])
  }

  /** How many pixels of `w` are true. */
  function Count(w: Grid<bool>): nat {
    CountRows(w.px)
  }

  /** Every true entry of a row is counted. */
  lemma {:induction false} CountRowAtLeast(row: seq<bool>, j: int, k: int)
    requires 0 <= j < |row| && row[j]
    requires -1 <= k < |row| && (k != -1 ==> k != j && row[k])
    ensures CountRow(row) >= (if k == -1 then 1 else 2)
  {
    var n := |row| - 1;
    if j == n || k == n {
      var other := if j == n then k else j;
      if other != -1 {
        CountRowAtLeast(row[..n], other, -1);
      }
    } else {
      CountRowAtLeast(row[..n], j, k);
    }
  }

  /** A row's count is part of the count of all rows. */
  lemma {:induction false} CountRowsAtLeast(rows: seq<seq<bool>>, i: int, k: int)
    requires 0 <= i < |rows|
    requires -1 <= k < |rows| && k != i
    ensures CountRows(rows) >= CountRow(rows[i]) + (if k == -1 then 0 else CountRow(rows[k]))
  {
    var n := |rows| - 1;
    if i == n || k == n {
      var other := if i == n then k else i;
      if other != -1 {
        CountRowsAtLeast(rows[..n], other, -1);
      }
    } else {
      CountRowsAtLeast(rows[..n], i, k);
    }
  }

  /** A selected pixel makes the count positive. */
  lemma CountPositive(w: Grid<bool>, i: int, j: int)
    requires w.Valid() && 0 <= i < w.rows && 0 <= j < w.cols && w.px[i][j]
    ensures Count(w) >= 1
  {
    CountRowAtLeast(w.px[i], j, -1);
    CountRowsAtLeast(w.px, i, -1);
  }

  /** A positive count has a selected entry behind it. */
  lemma {:induction false} CountRowWitness(row: seq<bool>)
    requires CountRow(row) >= 1
    ensures exists j :: 0 <= j < |row| && row[j]
  {
    var n := |row| - 1;
    if !row[n] {
      CountRowWitness(row[..n]);
      var j :| 0 <= j < n && row[..n][j];
      assert row[j];
    }
  }

  lemma {:induction false} CountRowsWitness(rows: seq<seq<bool>>)
    requires CountRows(rows) >= 1
    ensures exists i, j :: 0 <= i < |rows| && 0 <= j < |rows[i]| && rows[i][j]
  {
    var n := |rows| - 1;
    if CountRow(rows[n]) >= 1 {
      CountRowWitness(rows[n]);
    } else {
      CountRowsWitness(rows[..n]);
      var i, j :| 0 <= i < n && 0 <= j < |rows[..n][i]| && rows[..n][i][j];
      assert rows[i][j];
    }
  }

  /** A positive count has a selected pixel behind it. */
  lemma CountWitness(w: Grid<bool>)
    requires w.Valid() && Count(w) >= 1
    ensures exists i, j :: 0 <= i < w.rows && 0 <= j < w.cols && w.px[i][j]
  {
    CountRowsWitness(w.px);
  }

  /** Two distinct selected pixels make the count at least two. */
  lemma CountAtLeastTwo(w: Grid<bool>, i: int, j: int, k: int, l: int)
    requires w.Valid() && 0 <= i < w.rows && 0 <= j < w.cols && 0 <= k < w.rows && 0 <= l < w.cols
    requires w.px[i][j] && w.px[k][l] && (i, j) != (k, l)
    ensures Count(w) >= 2
  {
    if i == k {
      CountRowAtLeast(w.px[i], j, l);
      CountRowsAtLeast(w.px, i, -1);
    } else {
      CountRowAtLeast(w.px[i], j, -1);
      CountRowAtLeast(w.px[k], l, -1);
      CountRowsAtLeast(w.px, i, k);
    }
  }

  /** The number of true entries of a boolean array, as `np.where(w)[0].size`. */
  method CountTrue(w: array2<bool>) returns (n: nat)
    ensures n == Count(Snapshot(w))
  {
    ghost var g := Snapshot(w);
    n := 0;
    var i := 0;
    while i < w.Length0
      invariant 0 <= i <= w.Length0
      invariant n == CountRows(g.px[..i])
    {
      var j := 0;
      var m := 0;
      while j < w.Length1
        invariant 0 <= j <= w.Length1
        invariant m == CountRow(g.px[i][..j])
      {
        assert g.px[i][..j + 1][..j] == g.px[i][..j];
        if w[i, j] {
          m := m + 1;
        }
        j := j + 1;
      }
      assert g.px[i][..j] == g.px[i];
      assert g.px[..i + 1][..i] == g.px[..i];
      n := n + m;
      i := i + 1;
    }
    assert g.px[..i] == g.px;
  }
}
