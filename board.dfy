/** The records of the engine and the board they are kept on.
    A board is a square list of rows; every cell holds the Move last stored
    there, and the mark "" marks a cell nobody has played yet. */
module Board {

  /** A player: the mark it puts on the board and a display colour
      (the colour is never inspected by the engine). */
  datatype Player = Player(mark: string, color: string)

  /** One placement, or the record an unplayed cell holds (mark "", the default). */
  datatype Move = Move(row: int, col: int, mark: string := "")

  /** A (row, col) pair, as the winning lines list them. */
  type Coord = (int, int)

  /** The "unplayed" sentinel mark. */
  const Unplayed: string := ""

  /** The board size and the players a game gets when none are given. */
  const DefaultBoardSize: nat := 3
  const DefaultPlayers: seq<Player> := [Player("X", "red"), Player("O", "blue")]

  /** `board` has n rows of n cells each. */
  predicate Square(board: seq<seq<Move>>, n: nat)
  {
    |board| == n && forall r :: 0 <= r < n ==> |board[r]| == n
  }

  /** Every cell holds a Move whose coordinates are that cell's own. */
  predicate WellPlaced(board: seq<seq<Move>>)
  {
    forall r, c :: 0 <= r < |board| && 0 <= c < |board[r]| ==>
      board[r][c].row == r && board[r][c].col == c
  }

  /** `(row, col)` names a cell of the board. */
  predicate OnBoard(board: seq<seq<Move>>, row: int, col: int)
  {
    0 <= row < |board| && 0 <= col < |board[row]|
  }

  /** Every cell of `line` is a cell of the board. */
  predicate LineOnBoard(board: seq<seq<Move>>, line: seq<Coord>)
  {
    forall i :: 0 <= i < |line| ==> OnBoard(board, line[i].0, line[i].1)
  }

  /** The board a new game starts from: every cell unplayed, holding its own coordinates. */
  function EmptyBoard(n: nat): (board: seq<seq<Move>>)
    ensures Square(board, n) && WellPlaced(board)
    ensures forall r, c :: 0 <= r < n && 0 <= c < n ==> board[r][c].mark == Unplayed
  {
    seq(n, row => seq(n, col => Move(row, col)))
  }

  /** The board with `move` stored at its own coordinates, every other cell kept. */
  function Place(board: seq<seq<Move>>, move: Move): (b: seq<seq<Move>>)
    requires OnBoard(board, move.row, move.col)
    ensures |b| == |board| && forall r :: 0 <= r < |b| ==> |b[r]| == |board[r]|
    ensures b[move.row][move.col] == move
    ensures forall r, c :: OnBoard(board, r, c) && (r, c) != (move.row, move.col) ==> b[r][c] == board[r][c]
    ensures forall n: nat :: Square(board, n) ==> Square(b, n)
    ensures WellPlaced(board) ==> WellPlaced(b)
  {
    board[move.row := board[move.row][move.col := move]]
  }

  /** All cells, row after row: the order in which the tie check walks the board. */
  function Flatten(board: seq<seq<Move>>): seq<Move>
  {
    if board == [] then [] else board[0] + Flatten(board[1..])
  }

  /** A move is found in the flattened board exactly when some cell holds it. */
  lemma {:induction false} FlattenHolds(board: seq<seq<Move>>, m: Move)
    ensures m in Flatten(board) <==> exists r, c :: OnBoard(board, r, c) && board[r][c] == m
  {
    if board != [] {
      FlattenHolds(board[1..], m);
      if m in Flatten(board) {
        if m in board[0] {
          var c :| 0 <= c < |board[0]| && board[0][c] == m;
          assert OnBoard(board, 0, c);
        } else {
          var r, c :| OnBoard(board[1..], r, c) && board[1..][r][c] == m;
          assert OnBoard(board, r + 1, c) && board[r + 1][c] == m;
        }
      }
      if exists r, c :: OnBoard(board, r, c) && board[r][c] == m {
        var r, c :| OnBoard(board, r, c) && board[r][c] == m;
        if r == 0 {
          assert m in board[0];
        } else {
          assert OnBoard(board[1..], r - 1, c) && board[1..][r - 1][c] == m;
        }
      }
    }
  }

  /** Every mark on the board is non-empty (Python's `all` over the marks:
      the empty string is the only false one); that is, the played cells
      are all the cells the walk visits. */
  predicate AllPlayed(board: seq<seq<Move>>): (full: bool)
    ensures full <==> PlayedCount(board) == |Flatten(board)|
  {
    CountFull(board);
    forall m :: m in Flatten(board) ==> m.mark != Unplayed
  }

  lemma {:induction false} RowCountFull(row: seq<Move>)
    ensures PlayedInRow(row) == |row| <==> forall m :: m in row ==> m.mark != Unplayed
  {
    if row != [] {
      RowCountFull(row[1..]);
      assert forall m :: m in row <==> m == row[0] || m in row[1..];
    }
  }

  lemma {:induction false} CountFull(board: seq<seq<Move>>)
    ensures PlayedCount(board) <= |Flatten(board)|
    ensures PlayedCount(board) == |Flatten(board)| <==> forall m :: m in Flatten(board) ==> m.mark != Unplayed
  {
    if board != [] {
      RowCountFull(board[0]);
      CountFull(board[1..]);
    }
  }

  /** The walk over a board whose rows all have width w visits rows × w cells. */
  lemma {:induction false} FlattenSize(board: seq<seq<Move>>, w: nat)
    requires forall r :: 0 <= r < |board| ==> |board[r]| == w
    ensures |Flatten(board)| == |board| * w
  {
    if board != [] {
      FlattenSize(board[1..], w);
      assert |board| * w == w + (|board| - 1) * w;
    }
  }

  /** An n×n board is full exactly when n² of its cells have been played. */
  lemma FullIffCount(board: seq<seq<Move>>, n: nat)
    requires Square(board, n)
    ensures AllPlayed(board) <==> PlayedCount(board) == n * n
  {
    FlattenSize(board, n);
  }

  /** AllPlayed holds exactly when no cell of the board is still unplayed. */
  lemma FullBoard(board: seq<seq<Move>>)
    ensures AllPlayed(board) <==> forall r, c :: OnBoard(board, r, c) ==> board[r][c].mark != Unplayed
  {
    forall m { FlattenHolds(board, m); }
  }

  /** How many cells of one row have been played. */
  function PlayedInRow(row: seq<Move>): (k: nat)
    ensures k <= |row|
  {
    if row == [] then 0
    else (if row[0].mark != Unplayed then 1 else 0) + PlayedInRow(row[1..])
  }

  /** How many cells of the board have been played. */
  function PlayedCount(board: seq<seq<Move>>): nat
  {
    if board == [] then 0 else PlayedInRow(board[0]) + PlayedCount(board[1..])
  }

  lemma {:induction false} PlayRowCell(row: seq<Move>, c: int, m: Move)
    requires 0 <= c < |row|
    ensures PlayedInRow(row[c := m]) ==
      PlayedInRow(row) - (if row[c].mark != Unplayed then 1 else 0) + (if m.mark != Unplayed then 1 else 0)
  {
    if c > 0 {
      assert row[c := m][1..] == row[1..][c - 1 := m];
      PlayRowCell(row[1..], c - 1, m);
    } else {
      assert row[c := m][1..] == row[1..];
    }
  }

  lemma {:induction false} PlayCell(board: seq<seq<Move>>, r: int, c: int, m: Move)
    requires OnBoard(board, r, c)
    ensures PlayedCount(board[r := board[r][c := m]]) ==
      PlayedCount(board) - (if board[r][c].mark != Unplayed then 1 else 0) + (if m.mark != Unplayed then 1 else 0)
  {
    var b := board[r := board[r][c := m]];
    if r == 0 {
      assert b[1..] == board[1..];
      PlayRowCell(board[0], c, m);
    } else {
      assert b[1..] == board[1..][r - 1 := board[1..][r - 1][c := m]];
      PlayCell(board[1..], r - 1, c, m);
    }
  }

  /** Playing a marked move on an unplayed cell adds exactly one played cell;
      so the played cells of a game count the moves it has processed. */
  lemma PlaceCountsOne(board: seq<seq<Move>>, m: Move)
    requires OnBoard(board, m.row, m.col)
    requires board[m.row][m.col].mark == Unplayed
    requires m.mark != Unplayed
    ensures PlayedCount(Place(board, m)) == PlayedCount(board) + 1
  {
    PlayCell(board, m.row, m.col, m);
  }

  lemma {:induction false} RowUnplayed(row: seq<Move>)
    requires forall c :: 0 <= c < |row| ==> row[c].mark == Unplayed
    ensures PlayedInRow(row) == 0
  {
    if row != [] {
      RowUnplayed(row[1..]);
    }
  }

  /** A board none of whose cells is played counts no played cell. */
  lemma {:induction false} NonePlayed(board: seq<seq<Move>>)
    requires forall r, c :: OnBoard(board, r, c) ==> board[r][c].mark == Unplayed
    ensures PlayedCount(board) == 0
  {
    if board != [] {
      RowUnplayed(board[0]);
      assert forall r, c :: OnBoard(board[1..], r, c) ==> OnBoard(board, r + 1, c);
      NonePlayed(board[1..]);
    }
  }
}
