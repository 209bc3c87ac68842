/** Squares and snapshots of the 3x3 board, shared by the win detector and the game session. */
module Cells {

  datatype Option<+T> = None | Some(value: T)

  /** The content of one square: `null`, `'X'` or `'O'`. */
  datatype Cell = Empty | X | O

  /** A square's index, row * 3 + col. */
  type Index = i: int | 0 <= i < 9

  /** One board snapshot: nine squares in row-major order. */
  type Squares = s: seq<Cell> | |s| == 9
    witness [Empty, Empty, Empty, Empty, Empty, Empty, Empty, Empty, Empty]

  /** The board a game starts from, `Array(9).fill(null)`. */
  function EmptySquares(): (s: Squares)
    ensures forall j :: 0 <= j < 9 ==> s[j] == Empty
  {
    [Empty, Empty, Empty, Empty, Empty, Empty, Empty, Empty, Empty]
  }

  /** The number of occupied squares in `s`. */
  function Filled(s: seq<Cell>): (n: nat)
    ensures n <= |s|
    ensures n == 0 <==> forall j :: 0 <= j < |s| ==> s[j] == Empty
    ensures n == |s| <==> forall j :: 0 <= j < |s| ==> s[j] != Empty
  {
    if s == [] then 0
    else
      var init := s[..|s| - 1];
      assert forall j :: 0 <= j < |init| ==> init[j] == s[j];
      Filled(init) + (if s[|s| - 1] == Empty then 0 else 1)
  }

  /** Occupying an empty square raises the count by exactly one. */
  lemma {:induction false} FilledOccupy(s: seq<Cell>, i: nat, m: Cell)
    requires i < |s| && s[i] == Empty && m != Empty
    ensures Filled(s[i := m]) == Filled(s) + 1
  {
    var t := s[i := m];
    var last := |s| - 1;
    if i == last {
      assert t[..last] == s[..last];
    } else {
      assert t[..last] == s[..last][i := m];
      FilledOccupy(s[..last], i, m);
    }
  }
}
