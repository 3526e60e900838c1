/** The winning lines of a board, computed the way the engine does it
    (coordinate rows, their transpose, the diagonal of the rows and the
    diagonal of the reversed columns), and proved equal to the plain
    description: the N rows, the N columns, the main diagonal and the
    anti-diagonal, in that order. */
module Lines {
  import opened Board

  /** The coordinates of every cell, row by row, read off the board's own moves. */
  function CoordRows(board: seq<seq<Move>>): (rows: seq<seq<Coord>>)
    ensures |rows| == |board| && forall r :: 0 <= r < |rows| ==> |rows[r]| == |board[r]|
  {
    seq(|board|, r requires 0 <= r < |board| =>
      seq(|board[r]|, c requires 0 <= c < |board[r]| => (board[r][c].row, board[r][c].col)))
  }

  /** Every list in `rows` has length w. */
  predicate Rectangular<T>(rows: seq<seq<T>>, w: nat)
  {
    forall r :: 0 <= r < |rows| ==> |rows[r]| == w
  }

  /** The transpose of a rectangular list of rows of width w (what `zip(*rows)` yields;
      with no rows at all it yields nothing). */
  function Columns<T>(rows: seq<seq<T>>, w: nat): (cols: seq<seq<T>>)
    requires Rectangular(rows, w)
    ensures |cols| == (if rows == [] then 0 else w)
    ensures Rectangular(cols, |rows|)
  {
    if rows == [] then []
    else seq(w, c requires 0 <= c < w => seq(|rows|, r requires 0 <= r < |rows| => rows[r][c]))
  }

  /** The list in reverse order: position i holds position |s| - 1 - i. */
  function Reversed<T>(s: seq<T>): seq<T>
  {
    seq(|s|, i requires 0 <= i < |s| => s[|s| - 1 - i])
  }

  /** The i-th element of the i-th list. */
  function Diagonal<T>(lists: seq<seq<T>>): seq<T>
    requires forall i :: 0 <= i < |lists| ==> |lists[i]| > i
  {
    seq(|lists|, i requires 0 <= i < |lists| => lists[i][i])
  }

  /** The winning lines of a square board, in the engine's order:
      rows, columns, the diagonal of the rows, the diagonal of the reversed columns. */
  function WinningCombosOf(board: seq<seq<Move>>, n: nat): (lines: seq<seq<Coord>>)
    requires Square(board, n)
  {
    var rows := CoordRows(board);
    var columns := Columns(rows, n);
    var firstDiagonal := Diagonal(rows);
    var secondDiagonal := Diagonal(Reversed(columns));
    rows + columns + [firstDiagonal, secondDiagonal]
  }

  // The lines as one would describe them by hand.

  function RowLine(n: nat, r: int): seq<Coord> { seq(n, i => (r, i)) }
  function ColumnLine(n: nat, c: int): seq<Coord> { seq(n, i => (i, c)) }
  function MainDiagonal(n: nat): seq<Coord> { seq(n, i => (i, i)) }
  function AntiDiagonal(n: nat): seq<Coord> { seq(n, i => (i, n - 1 - i)) }

  /** For any board of size n whose cells hold their own coordinates, the
      engine's winning lines are exactly the n rows, the n columns, the main
      diagonal and the anti-diagonal, in that order: 2n + 2 lines of n cells. */
  lemma WinningCombosShape(board: seq<seq<Move>>, n: nat)
    requires Square(board, n) && WellPlaced(board)
    ensures var w := WinningCombosOf(board, n);
      && |w| == 2 * n + 2
      && (forall k :: 0 <= k < n ==> w[k] == RowLine(n, k) && w[n + k] == ColumnLine(n, k))
      && w[2 * n] == MainDiagonal(n)
      && w[2 * n + 1] == AntiDiagonal(n)
  {
    var rows := CoordRows(board);
    var columns := Columns(rows, n);
    assert forall k :: 0 <= k < n ==> rows[k] == RowLine(n, k);
    assert forall k :: 0 <= k < n ==> columns[k] == ColumnLine(n, k);
    assert Diagonal(rows) == MainDiagonal(n);
    assert Diagonal(Reversed(columns)) == AntiDiagonal(n);
  }

  /** Every line of the engine's list has n cells, each of them on the board;
      this holds for any board of the same size, so it survives every move. */
  lemma WinningCombosOnBoard(board: seq<seq<Move>>, n: nat, other: seq<seq<Move>>)
    requires Square(board, n) && WellPlaced(board) && Square(other, n)
    ensures forall combo :: combo in WinningCombosOf(board, n) ==> |combo| == n && LineOnBoard(other, combo)
  {
    var w := WinningCombosOf(board, n);
    WinningCombosShape(board, n);
    forall combo | combo in w
      ensures |combo| == n && LineOnBoard(other, combo)
    {
      var k :| 0 <= k < |w| && w[k] == combo;
      if k < n {
        assert combo == RowLine(n, k);
      } else if k < 2 * n {
        assert combo == ColumnLine(n, k - n);
      } else if k == 2 * n {
        assert combo == MainDiagonal(n);
      } else {
        assert combo == AntiDiagonal(n);
      }
    }
  }
}
