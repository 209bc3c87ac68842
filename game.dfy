/**
 * The `Game` component's state machine: the history of board snapshots, the cursor
 * `currentMove` into it, moves that discard the future, jumps, and the move list.
 */
module Game {
  import opened Cells
  import opened WinDetector
  import opened Board

  /** `xIsNext`, derived from the cursor: 'X' moves from every even position. */
  function XIsNext(currentMove: nat): (r: bool)
    ensures r <==> currentMove % 2 == 0
    ensures Mark(r) == (if currentMove % 2 == 0 then X else O)
  {
    currentMove % 2 == 0
  }

  /** `next` is what an accepted click on some square of `prev` produces. */
  ghost predicate LegalMove(prev: Squares, next: Squares, xIsNext: bool) {
    exists i: Index :: NextSquares(prev, i, xIsNext) == Some(next)
  }

  /**
   * A history that clicks and jumps can build: it starts from the empty board, and each
   * snapshot follows from the one before by an accepted click of the player whose turn it was.
   */
  ghost predicate LegalHistory(h: seq<Squares>) {
    |h| > 0 && h[0] == EmptySquares() &&
    forall k :: 0 < k < |h| ==> LegalMove(h[k - 1], h[k], XIsNext(k - 1))
  }

  /** Snapshot `k` of a legal history has exactly `k` occupied squares. */
  lemma {:induction false} LegalHistoryFilled(h: seq<Squares>, k: nat)
    requires LegalHistory(h) && k < |h|
    ensures Filled(h[k]) == k
  {
    if k > 0 {
      LegalHistoryFilled(h, k - 1);
      assert LegalMove(h[k - 1], h[k], XIsNext(k - 1));
      var i: Index :| NextSquares(h[k - 1], i, XIsNext(k - 1)) == Some(h[k]);
      AcceptedClickFills(h[k - 1], i, XIsNext(k - 1));
    }
  }

  /** A legal history holds at most ten snapshots: the empty board and nine moves. */
  lemma LegalHistoryLength(h: seq<Squares>)
    requires LegalHistory(h)
    ensures |h| <= 10
  {
    LegalHistoryFilled(h, |h| - 1);
  }

  /** Once a snapshot has a winner, no move follows it: only the last snapshot can be won. */
  lemma LegalHistoryDecidedLast(h: seq<Squares>, k: nat)
    requires LegalHistory(h) && k + 1 < |h|
    ensures Winner(h[k]).None?
  {
    assert LegalMove(h[k], h[k + 1], XIsNext(k));
  }

  /**
   * In a legal history the status reads "Result is a draw" exactly when the board at the
   * cursor is full and has no winner.
   */
  lemma DrawIffFull(h: seq<Squares>, currentMove: nat)
    requires currentMove < |h|
    ensures LegalHistory(h) ==>
              (StatusOf(h[currentMove], XIsNext(currentMove), currentMove) == Draw
               <==> Winner(h[currentMove]).None? && forall j :: 0 <= j < 9 ==> h[currentMove][j] != Empty)
  {
    if LegalHistory(h) {
      LegalHistoryFilled(h, currentMove);
    }
  }

  /**
   * Clicking from any cursor position keeps the history legal: the kept prefix is legal
   * and the appended snapshot is an accepted click of the player to move.
   */
  lemma LegalHistoryBranch(h: seq<Squares>, currentMove: nat, i: Index)
    requires LegalHistory(h) && currentMove < |h|
    requires NextSquares(h[currentMove], i, XIsNext(currentMove)).Some?
    ensures LegalHistory(h[..currentMove + 1] + [NextSquares(h[currentMove], i, XIsNext(currentMove)).value])
  {
    var next := NextSquares(h[currentMove], i, XIsNext(currentMove)).value;
    var h' := h[..currentMove + 1] + [next];
    forall k | 0 < k < |h'|
      ensures LegalMove(h'[k - 1], h'[k], XIsNext(k - 1))
    {
      if k <= currentMove {
        assert LegalMove(h[k - 1], h[k], XIsNext(k - 1));
      } else {
        assert NextSquares(h'[k - 1], i, XIsNext(k - 1)) == Some(h'[k]);
      }
    }
  }

  /** A square's position on the board, as the move list shows it: `(row,col)`. */
  datatype Pos = Pos(row: nat, col: nat)

  /** One entry of the move list: the inert label for the current move, or a jump button. */
  datatype Description =
    | YouAreAt(move: nat, pos: Option<Pos>)
    | GoToMove(move: nat, pos: Option<Pos>)
    | GoToStart

  /** The position of square `j` in row-major order. */
  function PosOf(j: Index): (p: Pos)
    ensures p.row < 3 && p.col < 3 && p.row * 3 + p.col == j
  {
    Pos(j / 3, j % 3)
  }

  /** The last square among the first `n`, in row-major order, where the two boards differ. */
  function LastDiff(prev: Squares, cur: Squares, n: nat): (r: Option<Index>)
    requires n <= 9
    ensures r.None? <==> forall j :: 0 <= j < n ==> prev[j] == cur[j]
    ensures r.Some? ==> r.value < n && prev[r.value] != cur[r.value]
    ensures r.Some? ==> forall j :: r.value < j < n ==> prev[j] == cur[j]
  {
    if n == 0 then None
    else if prev[n - 1] != cur[n - 1] then Some(n - 1)
    else LastDiff(prev, cur, n - 1)
  }

  /** `thisMove`: where move `move` was played, found by comparing it with the snapshot before. */
  function ThisMove(history: seq<Squares>, move: nat): Option<Pos>
    requires move < |history|
  {
    if move == 0 then None else ThisPos(LastDiff(history[move - 1], history[move], 9))
  }

  /**
   * The move-list entry for `move`: "You are at move #n" exactly at the cursor, otherwise
   * "Go to move #n" for a later move and "Go to game start" for move 0. The position shown is
   * the last square, in row-major order, that differs from the snapshot before.
   */
  function Describe(history: seq<Squares>, move: nat, currentMove: nat): (d: Description)
    requires move < |history|
    ensures d.YouAreAt? <==> move == currentMove
    ensures d.GoToStart? <==> move == 0 && move != currentMove
    ensures !d.GoToStart? ==> d.move == move
    ensures !d.GoToStart? ==> (d.pos.None? <==> move == 0 || history[move - 1] == history[move])
    ensures !d.GoToStart? && d.pos.Some? ==>
              var p := d.pos.value;
              move > 0 && p.row < 3 && p.col < 3 &&
              history[move - 1][p.row * 3 + p.col] != history[move][p.row * 3 + p.col] &&
              forall j :: p.row * 3 + p.col < j < 9 ==> history[move - 1][j] == history[move][j]
  {
    var thisMove := ThisMove(history, move);
    assert move > 0 ==>
      (history[move - 1] == history[move] <==> forall j :: 0 <= j < 9 ==> history[move - 1][j] == history[move][j]);
    if move == currentMove then YouAreAt(move, thisMove)
    else if move > 0 then GoToMove(move, thisMove)
    else GoToStart
  }

  /** When a move was an accepted click on square `i`, its entry reports exactly that square. */
  lemma DescribeReportsPlayedSquare(h: seq<Squares>, move: nat, currentMove: nat, i: Index, xIsNext: bool)
    requires 0 < move < |h|
    requires NextSquares(h[move - 1], i, xIsNext) == Some(h[move])
    ensures Describe(h, move, currentMove).pos == Some(PosOf(i))
  {
  }

  /** A game in progress: the snapshot history and the cursor into it. */
  class GameSession {
    var history: seq<Squares>
    var currentMove: nat

    /**
     * The cursor always points into the history, and the history is one that clicks and jumps
     * build: `handlePlay` is only ever called back from `handleClick` with an accepted click.
     */
    ghost predicate Valid()
      reads this
    {
      currentMove < |history| && LegalHistory(history)
    }

    /** The history never holds more than ten snapshots, so the cursor never passes move 9. */
    lemma CursorBound()
      requires Valid()
      ensures |history| <= 10 && currentMove <= 9
    {
      LegalHistoryLength(history);
    }

    /** A new game: one empty board, cursor at move 0. */
    constructor ()
      ensures Valid()
      ensures history == [EmptySquares()] && currentMove == 0
    {
      history := [EmptySquares()];
      currentMove := 0;
    }

    /** `currentSquares`: the snapshot at the cursor. */
    function CurrentSquares(): (s: Squares)
      reads this
      requires Valid()
      ensures s == history[currentMove]
    {
      history[currentMove]
    }

    /** The status line of the board at the cursor. */
    function Status(): (st: Status)
      reads this
      requires Valid()
      ensures st == StatusOf(history[currentMove], XIsNext(currentMove), currentMove)
      ensures st == Draw <==> Winner(history[currentMove]).None? &&
                              forall j :: 0 <= j < 9 ==> history[currentMove][j] != Empty
    {
      DrawIffFull(history, currentMove);
      StatusOf(CurrentSquares(), XIsNext(currentMove), currentMove)
    }

    /**
     * `handlePlay`: keep the history up to and including the cursor, drop everything after it,
     * append the new snapshot and move the cursor to it. Its one caller, `handleClick`, passes
     * an accepted click of the player to move.
     */
    method HandlePlay(nextSquares: Squares)
      requires Valid()
      requires LegalMove(history[currentMove], nextSquares, XIsNext(currentMove))
      modifies this
      ensures Valid()
      ensures history == old(history)[..old(currentMove) + 1] + [nextSquares]
      ensures |history| == currentMove + 1 && currentMove == old(currentMove) + 1
    {
      ghost var i: Index :| NextSquares(history[currentMove], i, XIsNext(currentMove)) == Some(nextSquares);
      LegalHistoryBranch(history, currentMove, i);
      var nextHistory := history[..currentMove + 1] + [nextSquares];
      history := nextHistory;
      currentMove := |nextHistory| - 1;
    }

    /** `jumpTo`: only the cursor moves; the history is untouched. */
    method JumpTo(nextMove: nat)
      requires Valid() && nextMove < |history|
      modifies this`currentMove
      ensures Valid() && history == old(history) && currentMove == nextMove
    {
      currentMove := nextMove;
    }

    /**
     * `handleClick(i)` on the board at the cursor: refused, with nothing changed, when the square
     * is taken or the board already has a winner; otherwise a copy of the board with the mover's
     * mark at `i` is played through `HandlePlay`, and the turn passes to the other player.
     */
    method HandleClick(i: Index)
      requires Valid()
      modifies this
      ensures Valid()
      ensures old(CurrentSquares()[i] != Empty || Winner(CurrentSquares()).Some?) ==>
                history == old(history) && currentMove == old(currentMove)
      ensures old(CurrentSquares()[i] == Empty && Winner(CurrentSquares()).None?) ==>
                history == old(history)[..old(currentMove) + 1] + [old(CurrentSquares())[i := Mark(XIsNext(old(currentMove)))]] &&
                currentMove == old(currentMove) + 1 &&
                XIsNext(currentMove) != old(XIsNext(currentMove))
    {
      var squares := history[currentMove];
      var winnerInfo := CalculateWinner(squares);
      if squares[i] != Empty || winnerInfo.Some? {
        return;
      }
      var nextSquares := squares;
      if XIsNext(currentMove) {
        nextSquares := nextSquares[i := X];
      } else {
        nextSquares := nextSquares[i := O];
      }
      assert NextSquares(squares, i, XIsNext(currentMove)) == Some(nextSquares);
      HandlePlay(nextSquares);
    }

    /** The move-list entry for `move`, with the source's nested row/column scan. */
    method MoveDescriptor(move: nat) returns (d: Description)
      requires Valid() && move < |history|
      ensures d == Describe(history, move, currentMove)
    {
      var thisMove: Option<Pos> := None;
      if move > 0 {
        var prevSquares := history[move - 1];
        var squares := history[move];
        for row := 0 to 3
          invariant thisMove == ThisPos(LastDiff(prevSquares, squares, row * 3))
        {
          for col := 0 to 3
            invariant thisMove == ThisPos(LastDiff(prevSquares, squares, row * 3 + col))
          {
            if prevSquares[row * 3 + col] != squares[row * 3 + col] {
              thisMove := Some(Pos(row, col));
            }
          }
        }
      }
      if move == currentMove {
        d := YouAreAt(move, thisMove);
      } else if move > 0 {
        d := GoToMove(move, thisMove);
      } else {
        d := GoToStart;
      }
    }

    /** `history.map(...)`: one entry per snapshot, in history order. */
    method Moves() returns (moves: seq<Description>)
      requires Valid()
      ensures |moves| == |history|
      ensures forall k :: 0 <= k < |moves| ==> moves[k] == Describe(history, k, currentMove)
    {
      moves := [];
      var move := 0;
      while move < |history|
        invariant move <= |history| && |moves| == move
        invariant forall k :: 0 <= k < move ==> moves[k] == Describe(history, k, currentMove)
      {
        var d := MoveDescriptor(move);
        moves := moves + [d];
        move := move + 1;
      }
    }
  }

  /** The position of an optional square. */
  function ThisPos(j: Option<Index>): Option<Pos> {
    match j
    case None => None
    case Some(j) => Some(PosOf(j))
  }
}
