/** Two complete games, played against the session's specifications alone. */
module Scenarios {
  import opened Cells
  import opened WinDetector
  import opened Board
  import opened Game

  /** X opens in the corner and O answers below it. */
  method DiagonalOpening(g: GameSession)
    requires g.Valid() && |g.history| == 1 && g.currentMove == 0
    requires g.CurrentSquares() == [Empty, Empty, Empty, Empty, Empty, Empty, Empty, Empty, Empty]
    modifies g
    ensures g.Valid() && g.currentMove == 2
    ensures g.history == old(g.history) + [[X, Empty, Empty, Empty, Empty, Empty, Empty, Empty, Empty], [X, Empty, Empty, O, Empty, Empty, Empty, Empty, Empty]]
  {
    assert Winner([Empty, Empty, Empty, Empty, Empty, Empty, Empty, Empty, Empty]).None?;
    g.HandleClick(0);
    assert g.CurrentSquares() == [X, Empty, Empty, Empty, Empty, Empty, Empty, Empty, Empty];
    assert Winner([X, Empty, Empty, Empty, Empty, Empty, Empty, Empty, Empty]).None?;
    g.HandleClick(3);
    assert g.CurrentSquares() == [X, Empty, Empty, O, Empty, Empty, Empty, Empty, Empty];
  }

  /** X takes the centre and O the middle right. */
  method DiagonalMiddle(g: GameSession)
    requires g.Valid() && |g.history| == 3 && g.currentMove == 2
    requires g.CurrentSquares() == [X, Empty, Empty, O, Empty, Empty, Empty, Empty, Empty]
    modifies g
    ensures g.Valid() && g.currentMove == 4
    ensures g.history == old(g.history) + [[X, Empty, Empty, O, X, Empty, Empty, Empty, Empty], [X, Empty, Empty, O, X, O, Empty, Empty, Empty]]
  {
    assert Winner([X, Empty, Empty, O, Empty, Empty, Empty, Empty, Empty]).None?;
    g.HandleClick(4);
    assert g.CurrentSquares() == [X, Empty, Empty, O, X, Empty, Empty, Empty, Empty];
    assert Winner([X, Empty, Empty, O, X, Empty, Empty, Empty, Empty]).None?;
    g.HandleClick(5);
    assert g.CurrentSquares() == [X, Empty, Empty, O, X, O, Empty, Empty, Empty];
  }

  /** X completes the main diagonal. */
  method DiagonalFinish(g: GameSession)
    requires g.Valid() && |g.history| == 5 && g.currentMove == 4
    requires g.CurrentSquares() == [X, Empty, Empty, O, X, O, Empty, Empty, Empty]
    modifies g
    ensures g.Valid() && g.currentMove == 5
    ensures g.history == old(g.history) + [[X, Empty, Empty, O, X, O, Empty, Empty, X]]
  {
    assert Winner([X, Empty, Empty, O, X, O, Empty, Empty, Empty]).None?;
    g.HandleClick(8);
    assert g.CurrentSquares() == [X, Empty, Empty, O, X, O, Empty, Empty, X];
  }

  /** The board sequence of the diagonal game, move by move. */
  const DiagonalHistory: seq<Squares> := [
    [Empty, Empty, Empty, Empty, Empty, Empty, Empty, Empty, Empty],
    [X, Empty, Empty, Empty, Empty, Empty, Empty, Empty, Empty],
    [X, Empty, Empty, O, Empty, Empty, Empty, Empty, Empty],
    [X, Empty, Empty, O, X, Empty, Empty, Empty, Empty],
    [X, Empty, Empty, O, X, O, Empty, Empty, Empty],
    [X, Empty, Empty, O, X, O, Empty, Empty, X]
  ]

  /** X takes the main diagonal and wins through line (0, 4, 8). */
  method DiagonalWin() returns (g: GameSession)
    ensures fresh(g) && g.Valid() && g.history == DiagonalHistory && g.currentMove == 5
    ensures Winner(g.CurrentSquares()) == Some(WinInfo(X, Line(0, 4, 8))) && g.Status() == Won(X)
  {
    g := new GameSession();
    DiagonalOpening(g);
    DiagonalMiddle(g);
    DiagonalFinish(g);
  }

  /** The game is decided: a click on a free square changes nothing. */
  method ClickAfterWin(g: GameSession)
    requires g.Valid() && g.history == DiagonalHistory && g.currentMove == 5
    modifies g
    ensures g.Valid() && g.history == DiagonalHistory && g.currentMove == 5
  {
    assert Winner(g.CurrentSquares()).Some?;
    g.HandleClick(1);
  }

  /** In the diagonal game, move 1 went to (0,0) and move 2 to (1,0). */
  lemma DiagonalDescriptors()
    ensures Describe(DiagonalHistory, 1, 2) == GoToMove(1, Some(Pos(0, 0)))
    ensures Describe(DiagonalHistory, 2, 2) == YouAreAt(2, Some(Pos(1, 0)))
  {
    assert Winner([Empty, Empty, Empty, Empty, Empty, Empty, Empty, Empty, Empty]).None?;
    assert Winner([X, Empty, Empty, Empty, Empty, Empty, Empty, Empty, Empty]).None?;
    assert [Empty, Empty, Empty, Empty, Empty, Empty, Empty, Empty, Empty][0 := X]
        == [X, Empty, Empty, Empty, Empty, Empty, Empty, Empty, Empty];
    assert [X, Empty, Empty, Empty, Empty, Empty, Empty, Empty, Empty][3 := O]
        == [X, Empty, Empty, O, Empty, Empty, Empty, Empty, Empty];
    assert NextSquares([Empty, Empty, Empty, Empty, Empty, Empty, Empty, Empty, Empty], 0, true)
        == Some([X, Empty, Empty, Empty, Empty, Empty, Empty, Empty, Empty]);
    assert NextSquares([X, Empty, Empty, Empty, Empty, Empty, Empty, Empty, Empty], 3, false)
        == Some([X, Empty, Empty, O, Empty, Empty, Empty, Empty, Empty]);
    DescribeReportsPlayedSquare(DiagonalHistory, 1, 2, 0, true);
    DescribeReportsPlayedSquare(DiagonalHistory, 2, 2, 3, false);
  }

  /** Back to move 2: the history is kept, and its entries still report where each move went. */
  method TravelBack(g: GameSession) returns (d1: Description, d2: Description)
    requires g.Valid() && g.history == DiagonalHistory && g.currentMove == 5
    modifies g
    ensures g.Valid() && g.history == DiagonalHistory && g.currentMove == 2
    ensures d1 == GoToMove(1, Some(Pos(0, 0))) && d2 == YouAreAt(2, Some(Pos(1, 0)))
  {
    g.JumpTo(2);
    d1 := g.MoveDescriptor(1);
    d2 := g.MoveDescriptor(2);
    DiagonalDescriptors();
  }

  /** A move from move 2 discards moves 3 to 5. */
  method Branch(g: GameSession)
    requires g.Valid() && g.history == DiagonalHistory && g.currentMove == 2
    modifies g
    ensures g.Valid() && g.currentMove == 3
    ensures g.history == DiagonalHistory[..3] + [[X, Empty, Empty, O, Empty, Empty, Empty, Empty, X]]
  {
    assert g.CurrentSquares() == [X, Empty, Empty, O, Empty, Empty, Empty, Empty, Empty];
    assert Winner([X, Empty, Empty, O, Empty, Empty, Empty, Empty, Empty]).None?;
    assert g.Status() == NextPlayer(X);
    g.HandleClick(8);
    assert g.CurrentSquares() == [X, Empty, Empty, O, Empty, Empty, Empty, Empty, X];
  }

  /** The diagonal game, a refused click, and time travel with a new branch. */
  method DiagonalSession() {
    var g := DiagonalWin();
    ClickAfterWin(g);
    var d1, d2 := TravelBack(g);
    Branch(g);
  }

  /** Moves one and two of a drawn game. */
  method DrawOpening(g: GameSession)
    requires g.Valid() && |g.history| == 1 && g.currentMove == 0
    requires g.CurrentSquares() == [Empty, Empty, Empty, Empty, Empty, Empty, Empty, Empty, Empty]
    modifies g
    ensures g.Valid() && g.currentMove == 2
    ensures g.history == old(g.history) + [[X, Empty, Empty, Empty, Empty, Empty, Empty, Empty, Empty], [X, O, Empty, Empty, Empty, Empty, Empty, Empty, Empty]]
  {
    assert Winner([Empty, Empty, Empty, Empty, Empty, Empty, Empty, Empty, Empty]).None?;
    g.HandleClick(0);
    assert g.CurrentSquares() == [X, Empty, Empty, Empty, Empty, Empty, Empty, Empty, Empty];
    assert Winner([X, Empty, Empty, Empty, Empty, Empty, Empty, Empty, Empty]).None?;
    g.HandleClick(1);
    assert g.CurrentSquares() == [X, O, Empty, Empty, Empty, Empty, Empty, Empty, Empty];
  }

  /** Moves three and four of a drawn game. */
  method DrawSecond(g: GameSession)
    requires g.Valid() && |g.history| == 3 && g.currentMove == 2
    requires g.CurrentSquares() == [X, O, Empty, Empty, Empty, Empty, Empty, Empty, Empty]
    modifies g
    ensures g.Valid() && g.currentMove == 4
    ensures g.history == old(g.history) + [[X, O, X, Empty, Empty, Empty, Empty, Empty, Empty], [X, O, X, Empty, O, Empty, Empty, Empty, Empty]]
  {
    assert Winner([X, O, Empty, Empty, Empty, Empty, Empty, Empty, Empty]).None?;
    g.HandleClick(2);
    assert g.CurrentSquares() == [X, O, X, Empty, Empty, Empty, Empty, Empty, Empty];
    assert Winner([X, O, X, Empty, Empty, Empty, Empty, Empty, Empty]).None?;
    g.HandleClick(4);
    assert g.CurrentSquares() == [X, O, X, Empty, O, Empty, Empty, Empty, Empty];
  }

  /** Moves five and six of a drawn game. */
  method DrawThird(g: GameSession)
    requires g.Valid() && |g.history| == 5 && g.currentMove == 4
    requires g.CurrentSquares() == [X, O, X, Empty, O, Empty, Empty, Empty, Empty]
    modifies g
    ensures g.Valid() && g.currentMove == 6
    ensures g.history == old(g.history) + [[X, O, X, X, O, Empty, Empty, Empty, Empty], [X, O, X, X, O, O, Empty, Empty, Empty]]
  {
    assert Winner([X, O, X, Empty, O, Empty, Empty, Empty, Empty]).None?;
    g.HandleClick(3);
    assert g.CurrentSquares() == [X, O, X, X, O, Empty, Empty, Empty, Empty];
    assert Winner([X, O, X, X, O, Empty, Empty, Empty, Empty]).None?;
    g.HandleClick(5);
    assert g.CurrentSquares() == [X, O, X, X, O, O, Empty, Empty, Empty];
  }

  /** Moves seven and eight of a drawn game. */
  method DrawFourth(g: GameSession)
    requires g.Valid() && |g.history| == 7 && g.currentMove == 6
    requires g.CurrentSquares() == [X, O, X, X, O, O, Empty, Empty, Empty]
    modifies g
    ensures g.Valid() && g.currentMove == 8
    ensures g.history == old(g.history) + [[X, O, X, X, O, O, Empty, X, Empty], [X, O, X, X, O, O, O, X, Empty]]
  {
    assert Winner([X, O, X, X, O, O, Empty, Empty, Empty]).None?;
    g.HandleClick(7);
    assert g.CurrentSquares() == [X, O, X, X, O, O, Empty, X, Empty];
    assert Winner([X, O, X, X, O, O, Empty, X, Empty]).None?;
    g.HandleClick(6);
    assert g.CurrentSquares() == [X, O, X, X, O, O, O, X, Empty];
  }

  /** The ninth move of a drawn game. */
  method DrawLast(g: GameSession)
    requires g.Valid() && |g.history| == 9 && g.currentMove == 8
    requires g.CurrentSquares() == [X, O, X, X, O, O, O, X, Empty]
    modifies g
    ensures g.Valid() && g.currentMove == 9
    ensures g.history == old(g.history) + [[X, O, X, X, O, O, O, X, X]]
  {
    assert Winner([X, O, X, X, O, O, O, X, Empty]).None?;
    g.HandleClick(8);
    assert g.CurrentSquares() == [X, O, X, X, O, O, O, X, X];
  }

  /** Nine moves with no complete line end in a draw. */
  method DrawnGame() returns (g: GameSession)
    ensures fresh(g) && g.Valid() && g.currentMove == 9
    ensures g.CurrentSquares() == [X, O, X, X, O, O, O, X, X] && g.Status() == Draw
  {
    g := new GameSession();
    DrawOpening(g);
    DrawSecond(g);
    DrawThird(g);
    DrawFourth(g);
    DrawLast(g);
    assert Winner(g.CurrentSquares()).None?;
  }
}
