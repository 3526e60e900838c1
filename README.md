# Tic-tac-toe game engine, modelled in Dafny

This project models the game-state engine of a Python tic-tac-toe game, the
`TicTacToeGame` class and its `Player` and `Move` records. The engine owns the
board, a square list of rows of `Move` records where the mark `""` means
"unplayed". It also owns the list of winning lines, the winner flag, the line
that produced the win, and a cyclic pointer to the current player. The Tkinter
window around it is not modelled.

Layout, one module per concern of the engine:

- `board.dfy` (module `Board`): the `Player` and `Move` records, the board, storing a move (`Place`), the walk over all cells used by the tie check, and the count of played cells.
- `lines.dfy` (module `Lines`): the winning lines. They are computed the way the engine computes them: coordinate rows, their transpose (`zip(*rows)`), the diagonal of the rows, and the diagonal of the reversed columns. A lemma proves them equal to the plain description: the rows, the columns, the main diagonal and the anti-diagonal, in that order.
- `outcome.dfy` (module `Outcome`): win detection. The engine tests a line by building the set of its marks. A lemma proves that test equal to a cell-by-cell reference (`LineWon`). `FirstWin` gives the first won line in list order.
- `turns.dfy` (module `Turns`): the turn cycle as an index taken modulo the number of players.
- `game.dfy` (module `Game`): the class `TicTacToeGame`. Its fields are the ones the Python object assigns, and its methods change them in place. `Valid()` is the object invariant. `Consistent()` says the winner flag and the recorded line agree with the board.
- `scenarios.dfy` (module `Scenarios`): games on the classic 3×3 board, namely a top-row win, a diagonal win and a tie.

The Python field `label` of `Player` and `Move` is called `mark` here, because `label` is a reserved word in Dafny. The defaults of the Python code are kept: a `Move` built without a mark carries `""`, and a game built without arguments has the players X (red) and O (blue) on a 3×3 board (`DEFAULT_PLAYERS`, `BOARD_SIZE`). The board size is never reassigned, so it is a constant of the class. The ghost constant `computedCombos` holds the lines computed for that size; the object invariant ties the winning lines to it.

Two points where the intended behaviour of the game and its code differ; the model follows the code:

- A game is meant to have at least two players and a positive board size, anything else being a construction error. The code checks neither. An empty player sequence fails at the first `next()` on the cycle, so the constructor requires at least one player. A board size of 0 gives an empty board with two empty "diagonals", and the model accepts it.
- What `process_move` should do once a winner exists is left open. The code stores the move anyway and scans again. `ProcessMove` models exactly that, with no validity precondition. The guarantees that depend on the move being valid are stated as implications from the state before the move.

## Model

| member | source | states |
|---|---|---|
| `Board.EmptyBoard` | Tic-Tac-Toe.py:36-40 | the set-up board is n×n, every cell holds a Move with its own (row, col) and the unplayed mark `""` |
| `Board.Place` | Tic-Tac-Toe.py:62-63 | storing a move puts it at (move.row, move.col) and leaves every other cell and the board's shape unchanged; a board whose cells hold their own coordinates keeps that property |
| `Board.FlattenHolds` | Tic-Tac-Toe.py:82-84 | the row-after-row walk over the board yields a move exactly when some cell holds it |
| `Board.AllPlayed` | Tic-Tac-Toe.py:82-85 | "all labels are truthy" holds exactly when the played-cell count equals the number of cells the walk visits |
| `Board.FullBoard` | Tic-Tac-Toe.py:82-85 | "all labels are truthy" holds exactly when no cell of the board carries the unplayed mark |
| `Board.FullIffCount` | Tic-Tac-Toe.py:79-85 | an n×n board is full exactly when n² of its cells are played |
| `Board.PlayCell` | Tic-Tac-Toe.py:62-63 | overwriting one cell changes the played-cell count by the old cell's contribution out and the new move's in |
| `Board.PlaceCountsOne` | Tic-Tac-Toe.py:62-63 | storing a marked move on an unplayed cell adds exactly one played cell, so played cells count the valid moves processed |
| `Board.NonePlayed` | Tic-Tac-Toe.py:36-40 | a board with no played cell counts zero played cells |
| `Lines.CoordRows` | Tic-Tac-Toe.py:44-47 | the coordinate rows read off the board have the board's shape |
| `Lines.Columns` | Tic-Tac-Toe.py:48 | the transpose has as many columns as the rows are wide (none when there are no rows), each as long as there are rows |
| `Lines.WinningCombosShape` | Tic-Tac-Toe.py:43-51 | for an n×n board whose cells hold their own coordinates, the computed list has 2n+2 lines: rows 0..n-1 as [(r,0)…(r,n-1)], then columns 0..n-1 as [(0,c)…(n-1,c)], then [(i,i)], then [(i,n-1-i)] |
| `Lines.WinningCombosOnBoard` | Tic-Tac-Toe.py:43-51 | every computed line has n cells, each on any n×n board, so the scan's lookups stay on the board whatever has been played |
| `Outcome.MarksOn` | Tic-Tac-Toe.py:65-68 | the set built for a line holds the mark of every cell on it and nothing else |
| `Outcome.IsWinningMarks` | Tic-Tac-Toe.py:69 | "one distinct value, and not `""`" holds exactly when the set is non-empty, any two of its marks are equal, and `""` is not among them |
| `Outcome.WinningMarksIffLineWon` | Tic-Tac-Toe.py:69 | "exactly one distinct mark, and not `""`" holds of a line's mark set exactly when the line is non-empty and all its cells carry the same non-empty mark (both directions) |
| `Outcome.PlaceKeepsLines` | Tic-Tac-Toe.py:62-63 | storing a move keeps the board's shape, so every line that lay on the board still does |
| `Outcome.FirstWinFrom` | Tic-Tac-Toe.py:64-73 | the result is the first won line at or after a position: it is won and no line between is; none means no line from there on is won |
| `Outcome.FirstWin` | Tic-Tac-Toe.py:64-73 | the first won line of the whole list in list order, or none exactly when no line is won |
| `Outcome.FirstWinUnique` | Tic-Tac-Toe.py:64-73 | a won line with no won line before it is the one the scan picks, so the recorded line is determined by the board |
| `Turns.NextIndex` | Tic-Tac-Toe.py:87-89 | the next position stays among the players, wraps to the first exactly after the last, and otherwise moves up by one |
| `Turns.Advance` | Tic-Tac-Toe.py:87-89 | any number of turns stays among the players |
| `Turns.AdvanceWithinRound` | Tic-Tac-Toe.py:87-89 | within one round, k turns move the position k places, wrapping past the last player to the first |
| `Turns.FullRoundReturns` | Tic-Tac-Toe.py:27-29 | as many turns as there are players bring the turn back to the same player |
| `Game.TicTacToeGame.constructor` | Tic-Tac-Toe.py:26-34 | a new game has the given players and size (by default X and O on 3×3), the first player current, no winner, an empty winning line, every cell unplayed at its own coordinates, no played cell, and the lines computed for that size, which the invariant keeps for the game's whole life; it is valid and consistent |
| `Game.TicTacToeGame.SetupBoard` | Tic-Tac-Toe.py:36-41 | lays out the empty board and stores the lines computed from it |
| `Game.TicTacToeGame.IsValidMove` | Tic-Tac-Toe.py:53-58 | true exactly when no winner is declared and the target cell is unplayed; false on every cell once there is a winner or a tie; a valid move in a consistent game means no line is won yet; reads only |
| `Game.TicTacToeGame.ProcessMove` | Tic-Tac-Toe.py:60-73 | the board becomes the old one with the move stored in its cell and nothing else changed; if a line is now won, the winner flag is set and the first won line recorded, otherwise flag and line are unchanged; the flag never goes back to false; a move made with no winner leaves the game consistent; a marked move on an unplayed cell adds one played cell |
| `Game.TicTacToeGame.ScanWinningCombos` | Tic-Tac-Toe.py:64-73 | the loop over the lines with its early exit: records the first won line in list order, or changes nothing when none is won |
| `Game.TicTacToeGame.HasWinner` | Tic-Tac-Toe.py:75-77 | in a consistent game, true exactly when some winning line is won, and then the recorded line is won |
| `Game.TicTacToeGame.IsTied` | Tic-Tac-Toe.py:79-85 | true exactly when no winner is declared and no cell is unplayed; never together with HasWinner; in a consistent game, no line is won |
| `Game.ValidGameLines` | Tic-Tac-Toe.py:43-51 | in every valid game the winning lines are those computed for its size: the n rows, the n columns, the main diagonal and the anti-diagonal, in that order |
| `Game.TicTacToeGame.TogglePlayer` | Tic-Tac-Toe.py:87-89 | the current player becomes the next in the cycle, wrapping from last to first; only the turn fields change, not the board or the winner state |
| `Scenarios.PlayAll` | Tic-Tac-Toe.py:60-63 | storing a sequence of on-board moves one after another keeps the board square |
| `Scenarios.PlayAllConcat` | Tic-Tac-Toe.py:60-63 | storing one sequence of moves and then another is storing their concatenation |
| `Scenarios.PlayAllCounts` | Tic-Tac-Toe.py:60-63 | marked moves stored on distinct unplayed cells add one played cell each, so the played cells count the valid moves processed |
| `Scenarios.ClassicIsLiteral` | Tic-Tac-Toe.py:43-51 | for the default size 3 (BOARD_SIZE) the engine's lines are exactly the eight rows, columns and diagonals, written out in order |
| `Scenarios.TopRowBoard` | Tic-Tac-Toe.py:62-63 | the moves X(0,0) O(1,0) X(0,1) O(1,1) X(0,2) leave the board X X X / O O _ / _ _ _ |
| `Scenarios.TopRowLineWon` | Tic-Tac-Toe.py:64-73 | on the board X X X / O O _ / _ _ _ the top row is won |
| `Scenarios.TopRowWin` | Tic-Tac-Toe.py:64-73 | after the top-row game the first won line is the top row [(0,0),(0,1),(0,2)] |
| `Scenarios.TopRowSteps` | Tic-Tac-Toe.py:60-63 | five stores one call at a time give the board PlayAll describes for the top-row game |
| `Scenarios.TopRowGame` | Tic-Tac-Toe.py:26-73 | a default game driven by five ProcessMove calls (X (0,0), O (1,0), X (0,1), O (1,1), X (0,2)) declares a winner and records the top row [(0,0),(0,1),(0,2)] |
| `Scenarios.DiagonalBoard` | Tic-Tac-Toe.py:62-63 | the moves X(0,0) O(0,1) X(1,1) O(1,0) X(2,2) leave the board X O _ / O X _ / _ _ X |
| `Scenarios.DiagonalOnlyWin` | Tic-Tac-Toe.py:64-73 | on the board X O _ / O X _ / _ _ X no row or column is won and the main diagonal is |
| `Scenarios.DiagonalWin` | Tic-Tac-Toe.py:64-73 | after the diagonal game the first won line is the main diagonal [(0,0),(1,1),(2,2)] |
| `Scenarios.TiedBoardIsFull` | Tic-Tac-Toe.py:79-85 | the board X O X / X O O / O X X is square, holds its own coordinates and has every cell played |
| `Scenarios.TiedOpeningBoard` | Tic-Tac-Toe.py:62-63 | X (0,0), O (0,1), X (0,2) on the empty board give X O X / _ _ _ / _ _ _ |
| `Scenarios.TiedMiddleBoard` | Tic-Tac-Toe.py:62-63 | O (1,1), X (1,0), O (1,2) then give X O X / X O O / _ _ _ |
| `Scenarios.TiedEndingBoard` | Tic-Tac-Toe.py:62-63 | X (2,1), O (2,0), X (2,2) then give X O X / X O O / O X X |
| `Scenarios.TiedGameBoard` | Tic-Tac-Toe.py:60-63 | the nine moves of the tied game, stored one after another from the empty board, reach X O X / X O O / O X X |
| `Scenarios.TiedGameCount` | Tic-Tac-Toe.py:79-85 | that board counts as many played cells as the game has moves (nine) |
| `Scenarios.TieHasNoWinner` | Tic-Tac-Toe.py:64-73 | on that board no line is won |
| `Scenarios.TiedGame` | Tic-Tac-Toe.py:75-85 | a valid, consistent game holding that board is tied and has no winner |

## Left out

- The Tkinter presentation class `TicTacToeBoard` (Tic-Tac-Toe.py:93-157) and `main()` (Tic-Tac-Toe.py:160-167) are not modelled. They are the window, the button grid and the event loop. They also call helpers that the file does not define.
- `Player.color` is carried as an uninterpreted string. The engine never reads it.
- Out-of-range coordinates are excluded by precondition (`OnBoard`). In Python, a negative index would silently address a cell from the other end, and an index that is too large raises `IndexError`.
- Negative board sizes are not modelled: the size is a `nat`. In Python, `range` of a negative number is empty, so such a board behaves like size 0.
- An empty player sequence is excluded by the constructor's precondition. In Python it raises `StopIteration` at construction.
- The turn cycle over an arbitrary iterable (`itertools.cycle`) is modelled as an index into a sequence. The players are fixed at construction.
- The scan loop of `process_move` is a separate method, `ScanWinningCombos`, which `ProcessMove` calls right after storing the move. The behaviour is the same: the store comes first, then the scan, and the scan stops at the first won line.
- Only the top-row game is played through the class's methods (`TopRowGame`). The diagonal game and the tied game are stated on the boards that successive `ProcessMove` calls produce (`PlayAll`), and `TiedGame` states what a consistent game holding the tied board answers; nine `ProcessMove` calls are not chained in one method.
