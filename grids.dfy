/** Grid values: all-false construction, the alive count and the single-cell flip. */
module Grids {
  import opened Types

  /** The length `Array.from({ length: n })` gives: a negative length counts as zero. */
  function Length(n: int): nat {
    if n < 0 then 0 else n
  }

  /** `h` rows of `w` dead cells (each dimension taken as an array length). */
  function AllFalse(h: int, w: int): (g: Grid)
    ensures |g| == Length(h)
    ensures forall i :: 0 <= i < |g| ==> |g[i]| == Length(w)
    ensures NoneAlive(g)
  {
    seq(Length(h), _ => seq(Length(w), _ => false))
  }

  predicate NoneAlive(g: Grid) {
    forall i, j :: 0 <= i < |g| && 0 <= j < |g[i]| ==> !g[i][j]
  }

  predicate InRange(g: Grid, r: int, c: int) {
    0 <= r < |g| && 0 <= c < |g[r]|
  }

  /** Number of alive cells of one row, counted left to right. */
  function RowAlive(row: seq<bool>): nat {
    if row == [] then 0 else RowAlive(row[..|row| - 1]) + (if row[|row| - 1] then 1 else 0)
  }

  /** Number of alive cells over all rows, counted top to bottom; ragged rows count as they are. */
  function Alive(g: Grid): nat {
    if g == [] then 0 else Alive(g[..|g| - 1]) + RowAlive(g[|g| - 1])
  }

  /** Total number of cells, row lengths summed. */
  function Cells(g: Grid): nat {
    if g == [] then 0 else Cells(g[..|g| - 1]) + |g[|g| - 1]|
  }

  /** The grid with the one cell at (r, c) negated. */
  function Flip(g: Grid, r: int, c: int): (g': Grid)
    requires InRange(g, r, c)
    ensures |g'| == |g|
    ensures forall i :: 0 <= i < |g| ==> |g'[i]| == |g[i]|
    ensures forall i, j :: 0 <= i < |g| && 0 <= j < |g[i]| ==>
      g'[i][j] == if i == r && j == c then !g[i][j] else g[i][j]
  {
    g[r := g[r][c := !g[r][c]]]
  }

  lemma {:induction false} RowAliveAtMost(row: seq<bool>)
    ensures RowAlive(row) <= |row|
    ensures RowAlive(row) == 0 <==> forall j :: 0 <= j < |row| ==> !row[j]
  {
    if row != [] {
      var init := row[..|row| - 1];
      RowAliveAtMost(init);
      assert forall j :: 0 <= j < |init| ==> init[j] == row[j];
    }
  }

  /** The alive count never exceeds the number of cells, and is zero exactly when no cell is alive. */
  lemma {:induction false} AliveBounds(g: Grid)
    ensures Alive(g) <= Cells(g)
    ensures Alive(g) == 0 <==> NoneAlive(g)
  {
    if g != [] {
      var init := g[..|g| - 1];
      AliveBounds(init);
      RowAliveAtMost(g[|g| - 1]);
      assert forall i :: 0 <= i < |init| ==> init[i] == g[i];
    }
  }

  lemma {:induction false} RowAliveUpdate(row: seq<bool>, c: int, b: bool)
    requires 0 <= c < |row|
    ensures RowAlive(row[c := b]) == RowAlive(row) - (if row[c] then 1 else 0) + (if b then 1 else 0)
  {
    var n := |row|;
    if c == n - 1 {
      assert row[c := b][..n - 1] == row[..n - 1];
    } else {
      assert row[c := b][..n - 1] == row[..n - 1][c := b];
      RowAliveUpdate(row[..n - 1], c, b);
    }
  }

  lemma {:induction false} AliveUpdate(g: Grid, r: int, row: seq<bool>)
    requires 0 <= r < |g|
    ensures Alive(g[r := row]) == Alive(g) - RowAlive(g[r]) + RowAlive(row)
  {
    var n := |g|;
    if r == n - 1 {
      assert g[r := row][..n - 1] == g[..n - 1];
    } else {
      assert g[r := row][..n - 1] == g[..n - 1][r := row];
      AliveUpdate(g[..n - 1], r, row);
    }
  }

  /** Flipping one cell moves the alive count by exactly one, down if the cell was alive, up otherwise. */
  lemma AliveFlip(g: Grid, r: int, c: int)
    requires InRange(g, r, c)
    ensures Alive(Flip(g, r, c)) == if g[r][c] then Alive(g) - 1 else Alive(g) + 1
  {
    RowAliveUpdate(g[r], c, !g[r][c]);
    AliveUpdate(g, r, g[r][c := !g[r][c]]);
    RowAliveAtMost(g[r]);
  }

  /** Flipping the same cell twice gives back the grid. */
  lemma FlipTwice(g: Grid, r: int, c: int)
    requires InRange(g, r, c)
    ensures InRange(Flip(g, r, c), r, c) && Flip(Flip(g, r, c), r, c) == g
  {
    var g2 := Flip(Flip(g, r, c), r, c);
    assert forall i :: 0 <= i < |g| ==> g2[i] == g[i];
  }
}
