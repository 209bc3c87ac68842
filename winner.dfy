/** Win detection: `calculateWinner` over one board snapshot. */
module WinDetector {
  import opened Cells

  /** Three square indices that form a row, a column or a diagonal. */
  datatype Line = Line(a: Index, b: Index, c: Index)

  /** What `calculateWinner` returns when some line is complete: `{ winner, line }`. */
  datatype WinInfo = WinInfo(winner: Cell, line: Line)

  /** The eight lines in the order they are scanned: rows, then columns, then diagonals. */
  const Lines: seq<Line> := [
    Line(0, 1, 2), Line(3, 4, 5), Line(6, 7, 8),
    Line(0, 3, 6), Line(1, 4, 7), Line(2, 5, 8),
    Line(0, 4, 8), Line(2, 4, 6)
  ]

  /** A line is complete when its three squares hold the same mark. */
  predicate Complete(s: Squares, l: Line) {
    s[l.a] != Empty && s[l.a] == s[l.b] && s[l.a] == s[l.c]
  }

  /** The index of the first complete line at or after `from`, or |Lines| when there is none. */
  function FirstComplete(s: Squares, from: nat): (k: nat)
    requires from <= |Lines|
    ensures from <= k <= |Lines|
    ensures k < |Lines| ==> Complete(s, Lines[k])
    ensures forall j :: from <= j < k ==> !Complete(s, Lines[j])
    decreases |Lines| - from
  {
    if from == |Lines| then from
    else if Complete(s, Lines[from]) then from
    else FirstComplete(s, from + 1)
  }

  /** The result of `calculateWinner`: the first complete line and the mark on it, or none. */
  function Winner(s: Squares): (r: Option<WinInfo>)
    ensures r.Some? ==> r.value.line in Lines && Complete(s, r.value.line)
    ensures r.Some? ==> r.value.winner != Empty && r.value.winner == s[r.value.line.a]
                        && r.value.winner == s[r.value.line.b] && r.value.winner == s[r.value.line.c]
  {
    var k := FirstComplete(s, 0);
    if k < |Lines| then Some(WinInfo(s[Lines[k].a], Lines[k])) else None
  }

  /** Scans the lines in order and returns at the first complete one. */
  method CalculateWinner(squares: Squares) returns (r: Option<WinInfo>)
    ensures r == Winner(squares)
    ensures r.None? <==> forall k :: 0 <= k < |Lines| ==> !Complete(squares, Lines[k])
  {
    var i := 0;
    while i < |Lines|
      invariant i <= |Lines|
      invariant forall j :: 0 <= j < i ==> !Complete(squares, Lines[j])
    {
      var l := Lines[i];
      if squares[l.a] != Empty && squares[l.a] == squares[l.b] && squares[l.a] == squares[l.c] {
        return Some(WinInfo(squares[l.a], l));
      }
      i := i + 1;
    }
    return None;
  }

  /** No line is listed twice, so a line determines its position in the scan. */
  lemma LinesDistinct()
    ensures forall i, j :: 0 <= i < j < |Lines| ==> Lines[i] != Lines[j]
  {
  }

  /** `calculateWinner` returns `null` exactly when none of the eight lines is complete. */
  lemma WinnerNoneIff(s: Squares)
    ensures Winner(s).None? <==> forall k :: 0 <= k < |Lines| ==> !Complete(s, Lines[k])
  {
  }

  /** Line `k` is the one reported exactly when it is complete and no earlier line is. */
  lemma WinnerIsEarliest(s: Squares, k: nat)
    requires k < |Lines|
    ensures Winner(s) == Some(WinInfo(s[Lines[k].a], Lines[k]))
            <==> Complete(s, Lines[k]) && forall j :: 0 <= j < k ==> !Complete(s, Lines[j])
  {
    LinesDistinct();
  }
}
