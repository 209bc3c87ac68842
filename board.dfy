/** The `Board` component's logic: whether a click is accepted, the snapshot it produces, and the status line. */
module Board {
  import opened Cells
  import opened WinDetector

  /** The mark the next move places: 'X' when `xIsNext`, else 'O'. */
  function Mark(xIsNext: bool): (m: Cell)
    ensures m != Empty
    ensures m == X <==> xIsNext
  {
    if xIsNext then X else O
  }

  /**
   * The decision and copy in `handleClick(i)`: `None` when the click is refused (the square is taken
   * or the board already has a winner), otherwise the copied board with the mover's mark at `i`.
   */
  function NextSquares(squares: Squares, i: Index, xIsNext: bool): (r: Option<Squares>)
    ensures r.None? <==> squares[i] != Empty || Winner(squares).Some?
    ensures r.Some? ==> r.value[i] == Mark(xIsNext)
    ensures r.Some? ==> forall j :: 0 <= j < 9 && j != i ==> r.value[j] == squares[j]
  {
    if squares[i] != Empty || Winner(squares).Some? then None
    else Some(squares[i := Mark(xIsNext)])
  }

  /** An accepted click occupies exactly one more square. */
  lemma AcceptedClickFills(squares: Squares, i: Index, xIsNext: bool)
    requires NextSquares(squares, i, xIsNext).Some?
    ensures Filled(NextSquares(squares, i, xIsNext).value) == Filled(squares) + 1
  {
    FilledOccupy(squares, i, Mark(xIsNext));
  }

  /**
   * A board produced by an accepted click can only be won by the player who clicked,
   * and only through a line that contains the square just played.
   */
  lemma OnlyMoverCanWin(squares: Squares, i: Index, xIsNext: bool)
    requires NextSquares(squares, i, xIsNext).Some?
    ensures var next := NextSquares(squares, i, xIsNext).value;
            Winner(next).Some? ==>
              Winner(next).value.winner == Mark(xIsNext) &&
              i in {Winner(next).value.line.a, Winner(next).value.line.b, Winner(next).value.line.c}
  {
    var next := NextSquares(squares, i, xIsNext).value;
    if Winner(next).Some? {
      var l := Winner(next).value.line;
      // The line was not complete before the click, so the click completed it.
      WinnerNoneIff(squares);
      assert !Complete(squares, l);
    }
  }

  /** The status line above the board. */
  datatype Status = Won(winner: Cell) | Draw | NextPlayer(player: Cell)

  /**
   * The status the board shows: a winner first; otherwise a draw exactly at move 9;
   * otherwise the next player, 'X' exactly when `xIsNext`.
   */
  function StatusOf(squares: Squares, xIsNext: bool, currentMove: nat): (st: Status)
    ensures st.Won? <==> Winner(squares).Some?
    ensures st.Won? ==> st.winner == Winner(squares).value.winner && st.winner != Empty
    ensures st.Draw? <==> Winner(squares).None? && currentMove == 9
    ensures st.NextPlayer? <==> Winner(squares).None? && currentMove != 9
    ensures st.NextPlayer? ==> st.player != Empty && (st.player == X <==> xIsNext)
  {
    match Winner(squares)
    case Some(info) => Won(info.winner)
    case None => if currentMove == 9 then Draw else NextPlayer(Mark(xIsNext))
  }
}
