/** Whole games on the classic 3-by-3 board. Each ProcessMove call leaves the
    board at Place(old board, move); when some line of the result is won it
    records the first one (FirstWin), and when none is it keeps the winner flag
    and the recorded line as they were. So a sequence of calls is described by
    the boards below. */
module Scenarios {
  import opened Board
  import opened Lines
  import opened Outcome
  import opened Game

  /** Every move lands on an n×n board. */
  predicate MovesOnBoard(ms: seq<Move>, n: nat)
  {
    forall i :: 0 <= i < |ms| ==> 0 <= ms[i].row < n && 0 <= ms[i].col < n
  }

  /** The board after the given moves are stored one after another. */
  function PlayAll(board: seq<seq<Move>>, n: nat, ms: seq<Move>): (b: seq<seq<Move>>)
    requires Square(board, n)
    requires MovesOnBoard(ms, n)
    ensures Square(b, n)
    decreases ms
  {
    if ms == [] then board else PlayAll(Place(board, ms[0]), n, ms[1..])
  }

  /** Storing marked moves on distinct, unplayed cells adds one played cell per move,
      so the played cells of a game count the valid moves it has processed. */
  lemma {:induction false} PlayAllCounts(board: seq<seq<Move>>, n: nat, ms: seq<Move>)
    requires Square(board, n)
    requires MovesOnBoard(ms, n)
    requires forall i :: 0 <= i < |ms| ==> ms[i].mark != Unplayed
    requires forall i :: 0 <= i < |ms| ==> board[ms[i].row][ms[i].col].mark == Unplayed
    requires forall i, j :: 0 <= i < j < |ms| ==> (ms[i].row, ms[i].col) != (ms[j].row, ms[j].col)
    ensures PlayedCount(PlayAll(board, n, ms)) == PlayedCount(board) + |ms|
    decreases ms
  {
    if ms != [] {
      var next: seq<seq<Move>> := Place(board, ms[0]);
      PlaceCountsOne(board, ms[0]);
      var rest: seq<Move> := ms[1..];
      forall i | 0 <= i < |rest|
        ensures next[rest[i].row][rest[i].col].mark == Unplayed
      {
        assert rest[i] == ms[i + 1];
      }
      PlayAllCounts(next, n, rest);
    }
  }

  /** Storing xs and then ys is storing xs + ys. */
  lemma {:induction false} PlayAllConcat(board: seq<seq<Move>>, n: nat, xs: seq<Move>, ys: seq<Move>)
    requires Square(board, n)
    requires MovesOnBoard(xs, n) && MovesOnBoard(ys, n)
    ensures MovesOnBoard(xs + ys, n)
    ensures PlayAll(board, n, xs + ys) == PlayAll(PlayAll(board, n, xs), n, ys)
    decreases xs
  {
    assert forall i :: 0 <= i < |xs + ys| ==> (xs + ys)[i] == if i < |xs| then xs[i] else ys[i - |xs|];
    if xs == [] {
      assert xs + ys == ys;
    } else {
      assert (xs + ys)[1..] == xs[1..] + ys;
      PlayAllConcat(Place(board, xs[0]), n, xs[1..], ys);
    }
  }

  /** The eight lines of the classic board, written out. */
  const ClassicLines: seq<seq<Coord>> :=
    [[(0, 0), (0, 1), (0, 2)], [(1, 0), (1, 1), (1, 2)], [(2, 0), (2, 1), (2, 2)],
     [(0, 0), (1, 0), (2, 0)], [(0, 1), (1, 1), (2, 1)], [(0, 2), (1, 2), (2, 2)],
     [(0, 0), (1, 1), (2, 2)], [(0, 2), (1, 1), (2, 0)]]

  /** For the default size, the engine computes exactly these eight lines, in this order. */
  lemma ClassicIsLiteral()
    ensures WinningCombosOf(EmptyBoard(3), 3) == ClassicLines
  {
    var w := WinningCombosOf(EmptyBoard(3), 3);
    WinningCombosShape(EmptyBoard(3), 3);
    forall k | 0 <= k < 8
      ensures w[k] == ClassicLines[k]
    {
      var line := ClassicLines[k];
      if k < 3 {
        var row := RowLine(3, k);
        assert row[0] == line[0] && row[1] == line[1] && row[2] == line[2];
      } else if k < 6 {
        var column := ColumnLine(3, k - 3);
        assert column[0] == line[0] && column[1] == line[1] && column[2] == line[2];
      } else if k == 6 {
        var diagonal := MainDiagonal(3);
        assert diagonal[0] == line[0] && diagonal[1] == line[1] && diagonal[2] == line[2];
      } else {
        var anti := AntiDiagonal(3);
        assert anti[0] == line[0] && anti[1] == line[1] && anti[2] == line[2];
      }
    }
  }

  /** The moves of the top-row game: X plays (0,0), (0,1), (0,2) while O plays (1,0), (1,1). */
  const TopRowMoves := [Move(0, 0, "X"), Move(1, 0, "O"), Move(0, 1, "X"), Move(1, 1, "O"), Move(0, 2, "X")]

  /** The board the top-row game ends on. */
  const TopRowFinal: seq<seq<Move>> :=
    [[Move(0, 0, "X"), Move(0, 1, "X"), Move(0, 2, "X")],
     [Move(1, 0, "O"), Move(1, 1, "O"), Move(1, 2, "")],
     [Move(2, 0, ""), Move(2, 1, ""), Move(2, 2, "")]]

  lemma TopRowBoard()
    ensures PlayAll(EmptyBoard(3), 3, TopRowMoves) == TopRowFinal
  {
    var ms := TopRowMoves;
    var b1 := Place(EmptyBoard(3), ms[0]);
    var b2 := Place(b1, ms[1]);
    var b3 := Place(b2, ms[2]);
    var b4 := Place(b3, ms[3]);
    var b5 := Place(b4, ms[4]);
    assert ms[1..][1..][1..][1..][1..] == [];
    assert PlayAll(EmptyBoard(3), 3, ms) == b5;
    assert b5[0] == [Move(0, 0, "X"), Move(0, 1, "X"), Move(0, 2, "X")];
    assert b5[1] == [Move(1, 0, "O"), Move(1, 1, "O"), Move(1, 2, "")];
    assert b5[2] == [Move(2, 0, ""), Move(2, 1, ""), Move(2, 2, "")];
  }

  /** After the top-row game the first won line is the top row, [(0,0), (0,1), (0,2)]
      (ClassicIsLiteral: these are the engine's lines for the default size). */
  lemma TopRowWin()
    ensures var b := PlayAll(EmptyBoard(3), 3, TopRowMoves);
      LinesOnBoard(b, ClassicLines) && FirstWin(b, ClassicLines) == Some(0)
  {
    TopRowBoard();
    TopRowLineWon();
    FirstWinUnique(TopRowFinal, ClassicLines, 0);
  }

  lemma TopRowLineWon()
    ensures LinesOnBoard(TopRowFinal, ClassicLines) && LineWon(TopRowFinal, ClassicLines[0])
  {
    assert LinesOnBoard(TopRowFinal, ClassicLines);
  }

  /** The top-row game played on a default engine, one ProcessMove call per move:
      the engine declares a winner and records the top row. */
  method TopRowGame() returns (won: bool, combo: seq<Coord>)
    ensures won && combo == [(0, 0), (0, 1), (0, 2)]
  {
    var ms := TopRowMoves;
    ghost var b1 := Place(EmptyBoard(3), ms[0]);
    ghost var b2 := Place(b1, ms[1]);
    ghost var b3 := Place(b2, ms[2]);
    ghost var b4 := Place(b3, ms[3]);
    ghost var b5 := Place(b4, ms[4]);
    var g := new TicTacToeGame();
    g.ProcessMove(ms[0]);
    assert g.moves == b1;
    g.ProcessMove(ms[1]);
    assert g.moves == b2;
    g.ProcessMove(ms[2]);
    assert g.moves == b3;
    g.ProcessMove(ms[3]);
    assert g.moves == b4;
    g.ProcessMove(ms[4]);
    assert g.moves == b5;
    TopRowSteps();
    ClassicIsLiteral();
    TopRowWin();
    won, combo := g.hasWinner, g.winnerCombo;
  }

  /** The top-row game's moves stored one call at a time give the PlayAll board. */
  lemma TopRowSteps()
    ensures var ms := TopRowMoves;
      PlayAll(EmptyBoard(3), 3, ms) ==
      Place(Place(Place(Place(Place(EmptyBoard(3), ms[0]), ms[1]), ms[2]), ms[3]), ms[4])
  {
    var ms := TopRowMoves;
    assert ms[1..][1..][1..][1..][1..] == [];
  }

  /** The moves of the diagonal game: X plays (0,0), (1,1), (2,2) while O plays (0,1), (1,0). */
  const DiagonalMoves := [Move(0, 0, "X"), Move(0, 1, "O"), Move(1, 1, "X"), Move(1, 0, "O"), Move(2, 2, "X")]

  lemma DiagonalBoard()
    ensures PlayAll(EmptyBoard(3), 3, DiagonalMoves) == DiagonalFinal
  {
    var ms := DiagonalMoves;
    var b1 := Place(EmptyBoard(3), ms[0]);
    var b2 := Place(b1, ms[1]);
    var b3 := Place(b2, ms[2]);
    var b4 := Place(b3, ms[3]);
    var b5 := Place(b4, ms[4]);
    assert ms[1..][1..][1..][1..][1..] == [];
    assert PlayAll(EmptyBoard(3), 3, ms) == b5;
    assert b5[0] == [Move(0, 0, "X"), Move(0, 1, "O"), Move(0, 2, "")];
    assert b5[1] == [Move(1, 0, "O"), Move(1, 1, "X"), Move(1, 2, "")];
    assert b5[2] == [Move(2, 0, ""), Move(2, 1, ""), Move(2, 2, "X")];
  }

  /** In the diagonal game no row or column is won, so the first won line is the
      main diagonal, [(0,0), (1,1), (2,2)], the seventh line. */
  lemma DiagonalWin()
    ensures var b := PlayAll(EmptyBoard(3), 3, DiagonalMoves);
      LinesOnBoard(b, ClassicLines) && FirstWin(b, ClassicLines) == Some(6)
  {
    DiagonalBoard();
    DiagonalOnlyWin();
    FirstWinUnique(DiagonalFinal, ClassicLines, 6);
  }

  /** The board the diagonal game ends on. */
  const DiagonalFinal: seq<seq<Move>> :=
    [[Move(0, 0, "X"), Move(0, 1, "O"), Move(0, 2, "")],
     [Move(1, 0, "O"), Move(1, 1, "X"), Move(1, 2, "")],
     [Move(2, 0, ""), Move(2, 1, ""), Move(2, 2, "X")]]

  lemma DiagonalOnlyWin()
    ensures LinesOnBoard(DiagonalFinal, ClassicLines)
    ensures forall k :: 0 <= k < 6 ==> !LineWon(DiagonalFinal, ClassicLines[k])
    ensures LineWon(DiagonalFinal, ClassicLines[6])
  {
    var b := DiagonalFinal;
    assert LinesOnBoard(b, ClassicLines);
    forall k | 0 <= k < 6
      ensures !LineWon(b, ClassicLines[k])
    {
      var line := ClassicLines[k];
      assert MarkAt(b, line[0]) != MarkAt(b, line[1]) || MarkAt(b, line[0]) != MarkAt(b, line[2]);
    }
  }



  /** The classic tie, X O X / X O O / O X X: every cell is played and no line is
      won, so in a consistent game holding this board no winner is declared and
      the game is tied. */
  /** The moves of the tied game: X (0,0), O (0,1), X (0,2), O (1,1), X (1,0),
      O (1,2), X (2,1), O (2,0), X (2,2), in three rounds of three. */
  const TiedOpening := [Move(0, 0, "X"), Move(0, 1, "O"), Move(0, 2, "X")]
  const TiedMiddle := [Move(1, 1, "O"), Move(1, 0, "X"), Move(1, 2, "O")]
  const TiedEnding := [Move(2, 1, "X"), Move(2, 0, "O"), Move(2, 2, "X")]
  const TiedMoves := TiedOpening + TiedMiddle + TiedEnding

  const TiedAfterOpening: seq<seq<Move>> :=
    [[Move(0, 0, "X"), Move(0, 1, "O"), Move(0, 2, "X")],
     [Move(1, 0, ""), Move(1, 1, ""), Move(1, 2, "")],
     [Move(2, 0, ""), Move(2, 1, ""), Move(2, 2, "")]]

  const TiedAfterMiddle: seq<seq<Move>> :=
    [[Move(0, 0, "X"), Move(0, 1, "O"), Move(0, 2, "X")],
     [Move(1, 0, "X"), Move(1, 1, "O"), Move(1, 2, "O")],
     [Move(2, 0, ""), Move(2, 1, ""), Move(2, 2, "")]]

  lemma TiedOpeningBoard()
    ensures PlayAll(EmptyBoard(3), 3, TiedOpening) == TiedAfterOpening
  {
    var ms := TiedOpening;
    var b3 := Place(Place(Place(EmptyBoard(3), ms[0]), ms[1]), ms[2]);
    assert ms[1..][1..][1..] == [];
    assert PlayAll(EmptyBoard(3), 3, ms) == b3;
    assert b3[0] == TiedAfterOpening[0];
    assert b3[1] == TiedAfterOpening[1];
    assert b3[2] == TiedAfterOpening[2];
  }

  lemma TiedMiddleBoard()
    ensures PlayAll(TiedAfterOpening, 3, TiedMiddle) == TiedAfterMiddle
  {
    var ms := TiedMiddle;
    var b3 := Place(Place(Place(TiedAfterOpening, ms[0]), ms[1]), ms[2]);
    assert ms[1..][1..][1..] == [];
    assert PlayAll(TiedAfterOpening, 3, ms) == b3;
    assert b3[0] == TiedAfterMiddle[0];
    assert b3[1] == TiedAfterMiddle[1];
    assert b3[2] == TiedAfterMiddle[2];
  }

  lemma TiedEndingBoard()
    ensures PlayAll(TiedAfterMiddle, 3, TiedEnding) == TiedBoard
  {
    var ms := TiedEnding;
    var b3 := Place(Place(Place(TiedAfterMiddle, ms[0]), ms[1]), ms[2]);
    assert ms[1..][1..][1..] == [];
    assert PlayAll(TiedAfterMiddle, 3, ms) == b3;
    assert b3[0] == TiedBoard[0];
    assert b3[1] == TiedBoard[1];
    assert b3[2] == TiedBoard[2];
  }

  /** The nine moves of the tied game, stored one after another, fill the board
      as X O X / X O O / O X X. */
  lemma TiedGameBoard()
    ensures PlayAll(EmptyBoard(3), 3, TiedMoves) == TiedBoard
  {
    var empty := EmptyBoard(3);
    assert MovesOnBoard(TiedOpening, 3) && MovesOnBoard(TiedMiddle, 3) && MovesOnBoard(TiedEnding, 3);
    TiedOpeningBoard();
    TiedMiddleBoard();
    TiedEndingBoard();
    PlayAllConcat(empty, 3, TiedOpening, TiedMiddle);
    PlayAllConcat(empty, 3, TiedOpening + TiedMiddle, TiedEnding);
  }

  /** Every move of the tied game lands on an unplayed cell, so the final board
      counts nine played cells, one per move. */
  lemma TiedGameCount()
    ensures PlayedCount(TiedBoard) == |TiedMoves|
  {
    TiedBoardIsFull();
    FullIffCount(TiedBoard, 3);
  }

  const TiedBoard :=
    [[Move(0, 0, "X"), Move(0, 1, "O"), Move(0, 2, "X")],
     [Move(1, 0, "X"), Move(1, 1, "O"), Move(1, 2, "O")],
     [Move(2, 0, "O"), Move(2, 1, "X"), Move(2, 2, "X")]]

  lemma TiedBoardIsFull()
    ensures Square(TiedBoard, 3) && WellPlaced(TiedBoard) && AllPlayed(TiedBoard)
  {
    FullBoard(TiedBoard);
  }

  lemma TieHasNoWinner()
    ensures LinesOnBoard(TiedBoard, ClassicLines) && FirstWin(TiedBoard, ClassicLines) == None
  {
    var b := TiedBoard;
    assert LinesOnBoard(b, ClassicLines);
    forall k | 0 <= k < 8
      ensures !LineWon(b, ClassicLines[k])
    {
      var line := ClassicLines[k];
      assert MarkAt(b, line[0]) != MarkAt(b, line[1]) || MarkAt(b, line[0]) != MarkAt(b, line[2]);
    }
  }

  /** A consistent game whose board is the tied board is tied and has no winner. */
  lemma TiedGame(g: TicTacToeGame)
    requires g.Valid() && g.Consistent() && g.moves == TiedBoard
    ensures g.IsTied() && !g.HasWinner()
  {
    ClassicIsLiteral();
    TiedBoardIsFull();
    TieHasNoWinner();
    FullBoard(TiedBoard);
  }
}
