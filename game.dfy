/** The game engine: the board, the winning lines, the winner flag and the
    line that produced the win, and the position in the cycle of players. */
module Game {
  import opened Board
  import opened Lines
  import opened Outcome
  import opened Turns

  class TicTacToeGame {
    var players: seq<Player>            // the sequence the turn cycle runs over
    var cur: nat                        // position of the current player in that cycle
    const boardSize: nat
    var currentPlayer: Player
    var winnerCombo: seq<Coord>
    var moves: seq<seq<Move>>           // the board, one Move per cell
    var hasWinner: bool
    var winningCombos: seq<seq<Coord>>

    /** The winning lines computed from the empty board of this game's size;
        a constant, so it never changes. */
    ghost const computedCombos: seq<seq<Coord>> := WinningCombosOf(EmptyBoard(boardSize), boardSize)

    /** Object invariant: the board is square and each cell holds its own
        coordinates, the winning lines are the ones computed for this board
        size (computedCombos) and lie on the board, and the recorded winning
        line is one of them (empty while there is no winner). */
    ghost predicate Valid()
      reads this
    {
      && |players| > 0 && cur < |players| && currentPlayer == players[cur]
      && Square(moves, boardSize) && WellPlaced(moves)
      && winningCombos == computedCombos
      && LinesOnBoard(moves, winningCombos)
      && WinnerRecorded()
    }

    /** The recorded winning line is one of the lines, and empty while there is no winner. */
    ghost predicate WinnerRecorded()
      reads this`hasWinner, this`winnerCombo, this`winningCombos
    {
      && (hasWinner ==> winnerCombo in winningCombos)
      && (!hasWinner ==> winnerCombo == [])
    }

    /** The winner flag and the recorded line agree with the board: a winner is
        declared exactly when some line is won, and the recorded line is the
        first won line in list order. */
    ghost predicate Consistent()
      reads this
      requires Valid()
    {
      match FirstWin(moves, winningCombos)
      case None => !hasWinner
      case Some(k) => hasWinner && winnerCombo == winningCombos[k]
    }

    /** A new game: the first player is current, the board is empty and no winner is declared.
        Without arguments it is the classic game: X then O on a 3-by-3 board. */
    constructor (players: seq<Player> := DefaultPlayers, boardSize: nat := DefaultBoardSize)
      requires |players| > 0
      ensures Valid() && Consistent()
      ensures this.players == players && this.boardSize == boardSize
      ensures cur == 0 && currentPlayer == players[0]
      ensures !hasWinner && winnerCombo == []
      ensures forall r, c :: 0 <= r < boardSize && 0 <= c < boardSize ==> moves[r][c] == Move(r, c, Unplayed)
      ensures moves == EmptyBoard(boardSize)
      ensures PlayedCount(moves) == 0
      ensures winningCombos == WinningCombosOf(EmptyBoard(boardSize), boardSize)
      ensures computedCombos == winningCombos
    {
      this.players := players;
      cur := 0;
      this.boardSize := boardSize;
      currentPlayer := players[0];
      winnerCombo := [];
      moves := [];
      hasWinner := false;
      winningCombos := [];
      new;
      SetupBoard();
      NonePlayed(moves);
    }

    /** Lays out the empty board and computes the winning lines from it. */
    method SetupBoard()
      requires |players| > 0 && cur < |players| && currentPlayer == players[cur]
      requires !hasWinner && winnerCombo == []
      modifies this`moves, this`winningCombos
      ensures Valid() && Consistent()
      ensures moves == EmptyBoard(boardSize)
      ensures winningCombos == WinningCombosOf(moves, boardSize)
    {
      moves := EmptyBoard(boardSize);
      winningCombos := WinningCombosOf(moves, boardSize);
      WinningCombosOnBoard(moves, boardSize, moves);
    }

    /** A move may be played when no winner is declared and its cell is unplayed. */
    function IsValidMove(move: Move): (valid: bool)
      reads this
      requires Valid() && OnBoard(moves, move.row, move.col)
      ensures valid <==> !hasWinner && moves[move.row][move.col].mark == Unplayed
      ensures hasWinner || IsTied() ==> !valid
      ensures valid && Consistent() ==> forall k :: 0 <= k < |winningCombos| ==> !LineWon(moves, winningCombos[k])
    {
      var moveWasNotPlayed := moves[move.row][move.col].mark == Unplayed;
      var noWinner := !hasWinner;
      FullBoard(moves);
      noWinner && moveWasNotPlayed
    }

    /** Stores `move` in its cell, then scans the winning lines in order and
        records the first one whose marks are a single non-empty value. */
    method ProcessMove(move: Move)
      requires Valid() && OnBoard(moves, move.row, move.col)
      modifies this`moves, this`hasWinner, this`winnerCombo
      ensures Valid()
      ensures moves == Place(old(moves), move)
      ensures match FirstWin(moves, winningCombos)
        case Some(k) => hasWinner && winnerCombo == winningCombos[k]
        case None => hasWinner == old(hasWinner) && winnerCombo == old(winnerCombo)
      ensures old(hasWinner) ==> hasWinner
      ensures !old(hasWinner) ==> Consistent()
      ensures old(moves[move.row][move.col].mark) == Unplayed && move.mark != Unplayed ==>
        PlayedCount(moves) == old(PlayedCount(moves)) + 1
    {
      if moves[move.row][move.col].mark == Unplayed && move.mark != Unplayed {
        PlaceCountsOne(moves, move);
      }
      PlaceKeepsLines(moves, move, winningCombos);
      moves := Place(moves, move);
      ScanWinningCombos();
    }

    /** The scan of ProcessMove: walks the winning lines in order, testing each
        line's set of marks, and on the first won line sets the winner flag,
        records that line and stops. */
    method ScanWinningCombos()
      requires LinesOnBoard(moves, winningCombos) && WinnerRecorded()
      modifies this`hasWinner, this`winnerCombo
      ensures WinnerRecorded()
      ensures match FirstWin(moves, winningCombos)
        case Some(k) => hasWinner && winnerCombo == winningCombos[k]
        case None => hasWinner == old(hasWinner) && winnerCombo == old(winnerCombo)
    {
      var k := 0;
      while k < |winningCombos|
        invariant 0 <= k <= |winningCombos|
        invariant hasWinner == old(hasWinner) && winnerCombo == old(winnerCombo)
        invariant forall j :: 0 <= j < k ==> !LineWon(moves, winningCombos[j])
      {
        var combo := winningCombos[k];
        var results := MarksOn(moves, combo);
        var isWin := IsWinningMarks(results);
        WinningMarksIffLineWon(moves, combo);
        if isWin {
          hasWinner := true;
          winnerCombo := combo;
          FirstWinUnique(moves, winningCombos, k);
          break;
        }
        k := k + 1;
      }
    }

    /** Whether a winner has been declared; in a consistent game, exactly when some line is won. */
    function HasWinner(): (won: bool)
      reads this
      ensures Valid() && Consistent() ==>
        (won <==> exists k :: 0 <= k < |winningCombos| && LineWon(moves, winningCombos[k]))
      ensures Valid() && Consistent() && won ==> winnerCombo in winningCombos && LineWon(moves, winnerCombo)
    {
      hasWinner
    }

    /** The game is tied when no winner is declared and no cell is unplayed;
        in a consistent game no line is then won, and a tie never coexists with a winner. */
    function IsTied(): (tied: bool)
      reads this
      ensures tied <==> !hasWinner && forall r, c :: OnBoard(moves, r, c) ==> moves[r][c].mark != Unplayed
      ensures tied ==> !HasWinner()
      ensures Valid() && Consistent() && tied ==>
        forall k :: 0 <= k < |winningCombos| ==> !LineWon(moves, winningCombos[k])
    {
      var noWinner := !hasWinner;
      FullBoard(moves);
      noWinner && AllPlayed(moves)
    }

    /** Passes the turn to the next player of the cycle, wrapping from the last to the first. */
    method TogglePlayer()
      requires Valid()
      modifies this`cur, this`currentPlayer
      ensures Valid()
      ensures cur == NextIndex(old(cur), |players|) && currentPlayer == players[cur]
    {
      cur := NextIndex(cur, |players|);
      currentPlayer := players[cur];
    }
  }

  /** In every valid game the winning lines are the rows, the columns, the main
      diagonal and the anti-diagonal of its board, in that order. */
  lemma ValidGameLines(g: TicTacToeGame)
    requires g.Valid()
    ensures g.winningCombos == WinningCombosOf(EmptyBoard(g.boardSize), g.boardSize)
    ensures var n := g.boardSize; var w := g.winningCombos;
      && |w| == 2 * n + 2
      && (forall k :: 0 <= k < n ==> w[k] == RowLine(n, k) && w[n + k] == ColumnLine(n, k))
      && w[2 * n] == MainDiagonal(n)
      && w[2 * n + 1] == AntiDiagonal(n)
  {
    WinningCombosShape(EmptyBoard(g.boardSize), g.boardSize);
  }
}
