/** Removal of full rows (src/App.tsx, clearLines). */
module LineClear {
  import opened Grid

  /** Result of a clear: the new board and how many rows were removed. */
  datatype Cleared = Cleared(board: Board, clearedLines: nat)

  /** A row whose every cell is occupied. */
  predicate Full(row: Row)
  {
    forall x :: 0 <= x < |row| ==> row[x] != Empty
  }

  /** Number of full rows. */
  function CountFull(b: Board): nat
  {
    if b == [] then 0 else (if Full(b[0]) then 1 else 0) + CountFull(b[1..])
  }

  /** The rows that are not full, in their original order (the source's filter). */
  function Survivors(b: Board): (s: Board)
    ensures |s| + CountFull(b) == |b|
  {
    if b == [] then []
    else if Full(b[0]) then Survivors(b[1..])
    else [b[0]] + Survivors(b[1..])
  }

  /** Every surviving row is a row of the input that is not full. */
  lemma {:induction false} SurvivorsRows(b: Board)
    ensures forall i :: 0 <= i < |Survivors(b)| ==> !Full(Survivors(b)[i]) && Survivors(b)[i] in b
  {
    if b != [] {
      SurvivorsRows(b[1..]);
    }
  }

  /** Filtering commutes with concatenation: surviving rows keep their relative order. */
  lemma {:induction false} SurvivorsAppend(a: Board, b: Board)
    ensures Survivors(a + b) == Survivors(a) + Survivors(b)
  {
    if a != [] {
      assert (a + b)[0] == a[0];
      assert (a + b)[1..] == a[1..] + b;
      SurvivorsAppend(a[1..], b);
    } else {
      assert a + b == b;
    }
  }

  /** A board without full rows survives the filter intact. */
  lemma {:induction false} SurvivorsOfNoFull(b: Board)
    requires CountFull(b) == 0
    ensures Survivors(b) == b
  {
    if b != [] {
      SurvivorsOfNoFull(b[1..]);
    }
  }

  lemma {:induction false} NoFullRowCountsZero(b: Board)
    requires forall y :: 0 <= y < |b| ==> !Full(b[y])
    ensures CountFull(b) == 0
  {
    if b != [] {
      assert !Full(b[0]);
      NoFullRowCountsZero(b[1..]);
    }
  }

  function EmptyRows(n: nat): Board
  {
    seq(n, _ => EmptyRow())
  }

  /** The source's clearLines: drop every full row and put as many empty rows on top. */
  function ClearLines(b: Board): (r: Cleared)
    requires WellFormed(b)
    ensures WellFormed(r.board)
    ensures r.clearedLines == CountFull(b)
  {
    var kept := Survivors(b);
    var cleared := Height - |kept|;
    SurvivorsRows(b);
    if cleared > 0 then
      var nb := EmptyRows(cleared) + kept;
      assert forall y :: cleared <= y < Height ==> nb[y] == kept[y - cleared];
      Cleared(nb, cleared)
    else
      Cleared(b, 0)
  }

  /** The result is as many empty rows as were cleared, on top of the surviving rows in their
      original order; with nothing to clear the board comes back unchanged. */
  lemma ClearLinesSpec(b: Board)
    requires WellFormed(b)
    ensures var r := ClearLines(b);
            && r.board == EmptyRows(r.clearedLines) + Survivors(b)
            && (r.clearedLines == 0 ==> r.board == b)
  {
    if ClearLines(b).clearedLines == 0 {
      SurvivorsOfNoFull(b);
      assert EmptyRows(0) + Survivors(b) == b;
    }
  }

  /** No full row remains after a clear. */
  lemma ClearLinesLeavesNoFullRow(b: Board)
    requires WellFormed(b)
    ensures forall y :: 0 <= y < Height ==> !Full(ClearLines(b).board[y])
  {
    var r := ClearLines(b);
    var n := r.clearedLines;
    ClearLinesSpec(b);
    SurvivorsRows(b);
    forall y | 0 <= y < Height ensures !Full(r.board[y]) {
      if y < n {
        assert r.board[y] == EmptyRow();
        assert r.board[y][0] == Empty;
      } else {
        assert r.board[y] == Survivors(b)[y - n];
      }
    }
  }

  /** Clearing twice is clearing once: the second pass removes nothing. */
  lemma ClearLinesIdempotent(b: Board)
    requires WellFormed(b)
    ensures ClearLines(ClearLines(b).board) == Cleared(ClearLines(b).board, 0)
  {
    var once := ClearLines(b).board;
    ClearLinesLeavesNoFullRow(b);
    NoFullRowCountsZero(once);
  }
}
