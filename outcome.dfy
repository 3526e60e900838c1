/** Win detection. The engine decides that a line is won by collecting the set
    of marks on it and asking for exactly one distinct, non-empty mark; the
    reference predicate LineWon says the same thing cell by cell. */
module Outcome {
  import opened Board

  datatype Option<T> = None | Some(value: T)

  /** The mark at a coordinate of the board. */
  function MarkAt(board: seq<seq<Move>>, at: Coord): string
    requires OnBoard(board, at.0, at.1)
  {
    board[at.0][at.1].mark
  }

  /** The set of distinct marks on a line. */
  function MarksOn(board: seq<seq<Move>>, line: seq<Coord>): (marks: set<string>)
    requires LineOnBoard(board, line)
    ensures forall i :: 0 <= i < |line| ==> MarkAt(board, line[i]) in marks
    ensures forall m :: m in marks ==> exists i :: 0 <= i < |line| && MarkAt(board, line[i]) == m
  {
    set i | 0 <= i < |line| :: MarkAt(board, line[i])
  }

  /** The engine's test on a line's set of marks: one distinct value, and not the empty one. */
  predicate IsWinningMarks(marks: set<string>): (win: bool)
    ensures win <==> marks != {} && Unplayed !in marks && forall x, y :: x in marks && y in marks ==> x == y
  {
    OneValue(marks);
    |marks| == 1 && Unplayed !in marks
  }

  /** A set has exactly one element when it is non-empty and any two of its elements are equal. */
  lemma OneValue(marks: set<string>)
    ensures |marks| == 1 <==> marks != {} && forall x, y :: x in marks && y in marks ==> x == y
  {
    if |marks| == 1 {
      var m :| m in marks;
      assert |marks - {m}| == 0;
      assert forall x :: x in marks && x != m ==> x in marks - {m};
    }
    if marks != {} && forall x, y :: x in marks && y in marks ==> x == y {
      var m :| m in marks;
      assert marks == {m};
    }
  }

  /** Reference: the line has at least one cell, all of its cells carry the same
      mark, and that mark is not the unplayed one. */
  predicate LineWon(board: seq<seq<Move>>, line: seq<Coord>)
    requires LineOnBoard(board, line)
  {
    && |line| > 0
    && MarkAt(board, line[0]) != Unplayed
    && forall i :: 0 <= i < |line| ==> MarkAt(board, line[i]) == MarkAt(board, line[0])
  }

  /** The engine's set test and the cell-by-cell reference agree on every line. */
  lemma {:induction false} WinningMarksIffLineWon(board: seq<seq<Move>>, line: seq<Coord>)
    requires LineOnBoard(board, line)
    ensures IsWinningMarks(MarksOn(board, line)) <==> LineWon(board, line)
  {
    var marks := MarksOn(board, line);
    if LineWon(board, line) {
      assert marks == {MarkAt(board, line[0])};
    }
    if IsWinningMarks(marks) {
      var m :| m in marks;
      assert |marks - {m}| == 0;
      assert marks == {m} by {
        assert forall x :: x in marks && x != m ==> x in marks - {m};
      }
      assert |line| > 0;
    }
  }

  /** Every line of the list lies on the board. */
  predicate LinesOnBoard(board: seq<seq<Move>>, lines: seq<seq<Coord>>)
  {
    forall k :: 0 <= k < |lines| ==> LineOnBoard(board, lines[k])
  }

  /** Storing a move keeps the board's shape, so lines on the board stay on it. */
  lemma PlaceKeepsLines(board: seq<seq<Move>>, move: Move, lines: seq<seq<Coord>>)
    requires OnBoard(board, move.row, move.col) && LinesOnBoard(board, lines)
    ensures LinesOnBoard(Place(board, move), lines)
  {
    var b := Place(board, move);
    assert |b| == |board| && forall r :: 0 <= r < |b| ==> |b[r]| == |board[r]|;
  }

  /** The first won line at position `from` or later, in list order, if any. */
  function FirstWinFrom(board: seq<seq<Move>>, lines: seq<seq<Coord>>, from: nat): (r: Option<nat>)
    requires LinesOnBoard(board, lines) && from <= |lines|
    ensures r.Some? ==> from <= r.value < |lines| && LineWon(board, lines[r.value])
    ensures r.Some? ==> forall j :: from <= j < r.value ==> !LineWon(board, lines[j])
    ensures r.None? <==> forall j :: from <= j < |lines| ==> !LineWon(board, lines[j])
    decreases |lines| - from
  {
    if from == |lines| then None
    else if LineWon(board, lines[from]) then Some(from)
    else FirstWinFrom(board, lines, from + 1)
  }

  /** The position of the first won line of the list, if any line is won. */
  function FirstWin(board: seq<seq<Move>>, lines: seq<seq<Coord>>): (r: Option<nat>)
    requires LinesOnBoard(board, lines)
    ensures r.Some? ==> r.value < |lines| && LineWon(board, lines[r.value])
    ensures r.Some? ==> forall j :: 0 <= j < r.value ==> !LineWon(board, lines[j])
    ensures r.None? <==> forall j :: 0 <= j < |lines| ==> !LineWon(board, lines[j])
  {
    FirstWinFrom(board, lines, 0)
  }

  /** The first won line is unique: any won line with no won line before it is that one. */
  lemma FirstWinUnique(board: seq<seq<Move>>, lines: seq<seq<Coord>>, k: nat)
    requires LinesOnBoard(board, lines) && k < |lines|
    requires LineWon(board, lines[k]) && forall j :: 0 <= j < k ==> !LineWon(board, lines[j])
    ensures FirstWin(board, lines) == Some(k)
  {
  }
}
