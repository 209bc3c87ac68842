# Tic-tac-toe game state machine

A model of the game logic in `src/App.js`, a React tic-tac-toe game with time travel. The
rendering is gone; what remains is:

- **Win detection** (`calculateWinner`, module `WinDetector`): the eight lines of the 3x3 board
  are scanned in a fixed order (rows, columns, diagonals) and the first line whose three squares
  hold the same mark is returned with that mark. `Winner`, built on the recursive scan `FirstComplete`, is the specification,
  `CalculateWinner` the source's loop with its early return, proved equal to it.
- **The board's logic** (`Board.handleClick` and the status line, module `Board`): a click is refused
  when the square is taken or the board already has a winner; otherwise the board is copied and the
  mover's mark written into the copy. The status is the winner if there is one, otherwise a draw
  exactly at move 9, otherwise the next player.
- **The session** (`Game`, module `Game`): class `GameSession` holds `history`, the list of board
  snapshots, and the cursor `currentMove`. `HandlePlay` keeps the history up to the cursor, appends
  the new snapshot and moves the cursor to it, discarding any "future" left behind by a jump;
  `JumpTo` moves only the cursor; `HandleClick` ties the board's click logic to `HandlePlay`.
  `MoveDescriptor` is the nested row/column loop that labels each entry of the move list, specified
  by the function `Describe`.
- `LegalHistory` describes the histories clicks and jumps can build (empty board first, each snapshot
  an accepted click of the player whose turn it was). It is part of the session invariant `Valid()`:
  `handlePlay` is only ever called back from `handleClick` (src/App.js:37, 140), so `HandlePlay`
  requires an accepted click of the player to move, and every operation keeps the history legal. The
  lemmas about it show that snapshot `k` has exactly `k` occupied squares, that the history never
  exceeds ten snapshots, that only the last snapshot can be won, and that "Result is a draw" means
  exactly a full board without a winner; so on every session the cursor stays at or below move 9.
- Module `Scenarios` plays two complete games through the session's specifications: a win on the
  main diagonal followed by a refused click, a jump back and a new branch; and a drawn game.

Cells are `Empty | X | O` for the source's `null`, `'X'` and `'O'`; a snapshot is a nine-element
sequence in row-major order (index `row * 3 + col`). Snapshots are values, so the source's
`squares.slice()` copy becomes a sequence update that leaves the old snapshot as it was.

Three facts about the code that the model keeps:

- `jumpTo` performs no range check, so `JumpTo` requires `nextMove < |history|`; every call site is a
  button for an existing entry of the history.
- The move list reports the LAST square, in row-major order, that differs from the previous snapshot,
  because the loop keeps overwriting `thisMove`; in a legal history exactly one square differs, so
  this is the square played (`DescribeReportsPlayedSquare`).
- `|history| == currentMove + 1` holds right after a move, not after a jump back: the discarded
  snapshots stay in the history until the next move.

## Model

| member | source | states |
|---|---|---|
| Cells.EmptySquares | src/App.js:77 | A new game's board has every square empty. |
| WinDetector.FirstComplete | src/App.js:164-169 | The scan stops at the first complete line at or after its start; every line it skips is incomplete, and it runs off the end only when none is complete. |
| WinDetector.Winner | src/App.js:152-172 | A reported result names one of the eight lines, that line is complete, and the reported winner is the non-empty mark held by all three of its squares. |
| WinDetector.CalculateWinner | src/App.js:152-172 | The loop with early return yields exactly `Winner`, and yields nothing exactly when no line is complete. |
| WinDetector.LinesDistinct | src/App.js:153-162 | No line appears twice in the table, so a line fixes its place in the scan order. |
| WinDetector.WinnerNoneIff | src/App.js:164-171 | `null` is returned if and only if none of the eight lines is complete. |
| WinDetector.WinnerIsEarliest | src/App.js:153-168 | Line k is the one returned if and only if it is complete and every line before it in the order rows, columns, diagonals is not. |
| Board.Mark | src/App.js:31-35 | The mark a move writes is 'X' exactly when `xIsNext` and 'O' otherwise, never empty. |
| Board.NextSquares | src/App.js:25-38 | A click is refused exactly when the square is taken or the board has a winner; an accepted click writes the mover's mark at `i` and leaves the other eight squares as they were. |
| Board.AcceptedClickFills | src/App.js:30-37 | An accepted click occupies exactly one more square. |
| Board.OnlyMoverCanWin | src/App.js:25-38 | After an accepted click, any winner is the player who clicked, through a line containing the square just played. |
| Board.StatusOf | src/App.js:40-50 | The status is the winner whenever there is one; otherwise a draw exactly when the move number is 9; otherwise the next player, 'X' exactly when `xIsNext`. |
| Game.LegalHistoryFilled | src/App.js:77-88 | In a history built by clicks, snapshot k has exactly k occupied squares. |
| Game.LegalHistoryLength | src/App.js:77-88 | A history built by clicks holds at most ten snapshots. |
| Game.LegalHistoryDecidedLast | src/App.js:26-28 | Every snapshot followed by another has no winner: once a board is won no move follows it. |
| Game.XIsNext | src/App.js:81 | X moves from every even cursor position and O from every odd one. |
| Game.DrawIffFull | src/App.js:43-48 | In a history built by clicks, "Result is a draw" is shown exactly when the board at the cursor is full and has no winner. |
| Game.LegalHistoryBranch | src/App.js:84-88 | Truncating at any cursor and appending an accepted click of the player to move yields a history built by clicks again. |
| Game.PosOf | src/App.js:104-107 | Square j sits at row j / 3, column j % 3, both below 3, and row * 3 + col gives j back. |
| Game.LastDiff | src/App.js:104-110 | The result is the last square among the first n where the two snapshots differ; there is none exactly when they agree on all n. |
| Game.Describe | src/App.js:98-120 | An entry is "You are at move #n" exactly at the cursor, "Go to game start" exactly for move 0 elsewhere, "Go to move #n" otherwise; the position shown is absent exactly for move 0 or an unchanged snapshot, and otherwise is the last differing square in row-major order. |
| Game.DescribeReportsPlayedSquare | src/App.js:103-110 | When a move was an accepted click on square i, its entry reports i's (row,col). |
| Game.GameSession.constructor | src/App.js:77-78 | A session starts with one empty board and the cursor at 0; that history is built by clicks. |
| Game.GameSession.CursorBound | src/App.js:77-88 | A session never holds more than ten snapshots, so the cursor never passes move 9. |
| Game.GameSession.CurrentSquares | src/App.js:82 | The board shown is the snapshot at the cursor. |
| Game.GameSession.Status | src/App.js:40-50 | The session's status is the board's status for the snapshot at the cursor, with `xIsNext` and the move number taken from the cursor; it is "Result is a draw" exactly when that board is full and has no winner. |
| Game.GameSession.HandlePlay | src/App.js:84-88 | The new history is the old one up to and including the cursor followed by the new snapshot; the cursor moves one on, to the last snapshot; the history stays one built by clicks. |
| Game.GameSession.JumpTo | src/App.js:90-92 | Only the cursor changes, to the requested move; the history is untouched. |
| Game.GameSession.HandleClick | src/App.js:25-38 | A refused click changes neither history nor cursor; an accepted one truncates after the cursor, appends the copy with the mover's mark (X from an even cursor, O from an odd one) at `i`, advances the cursor and hands the turn over. |
| Game.GameSession.MoveDescriptor | src/App.js:98-120 | The nested row/column scan produces exactly `Describe` for the requested move. |
| Game.GameSession.Moves | src/App.js:98-135 | The move list has one entry per snapshot, entry k being `Describe` of move k. |
| Scenarios.DiagonalWin | src/App.js:40-45 | X playing 0, 4 and 8 against O on 3 and 5 wins through line (0,4,8). |
| Scenarios.ClickAfterWin | src/App.js:26-28 | A click on a free square of a won board changes nothing. |
| Scenarios.DiagonalDescriptors | src/App.js:103-117 | Moves 1 and 2 of that game report (0,0) and (1,0); move 2 is labelled current after jumping to it. |
| Scenarios.TravelBack | src/App.js:90-120 | Jumping back to move 2 keeps all six snapshots; the entries for moves 1 and 2 then read "Go to move #1 (0,0)" and "You are at move #2 (1,0)". |
| Scenarios.Branch | src/App.js:84-88 | A move made from move 2 leaves four snapshots: moves 3 to 5 are gone. |
| Scenarios.DrawnGame | src/App.js:46-47 | Nine moves with no complete line end at move 9 with the status "Result is a draw". |

## Left out

- Rendering: `Square`, `ToggleButton`, the board and row layout, CSS highlighting of the winning line (src/App.js:3-22, 52-72, 122-149); the status and move-list texts are represented by the datatypes `Status` and `Description` instead of concatenated strings.
- The `sortAscending` preference, `onToggleButtonClick` and `moves.reverse()` (src/App.js:79, 94-96, 143): they reorder the rendered list and never touch the history or the cursor.
- React's `useState` and re-rendering: the state is the two fields of `GameSession`, and every derived value (`xIsNext`, `currentSquares`, status, move list) is recomputed from them by a function.
- Game.GameSession.HandlePlay: requires the new snapshot to be an accepted click of the player to move from the board at the cursor, because its only caller is `onPlay` from `handleClick` (src/App.js:37, 140); an arbitrary snapshot passed in directly is not modelled.
- Game.GameSession.JumpTo: requires an index inside the history, because the source performs no range check and an out-of-range cursor would leave `history[currentMove]` undefined.
