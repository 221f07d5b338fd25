/** The 10x20 board, the collision test and the stamping of a piece into a board copy (src/App.tsx). */
module Grid {
  import opened Pieces

  const Width := 10
  const Height := 20

  /** A board cell: empty (0 in the source) or holding the marker of the piece kind locked there. */
  datatype Cell = Empty | Block(kind: Kind)

  type Row = seq<Cell>

  /** Row-major grid, row 0 on top. */
  type Board = seq<Row>

  /** Anchor of a piece: board coordinates of the top-left cell of its shape matrix. */
  datatype Pos = Pos(x: int, y: int)

  /** Where every new piece appears. */
  const SpawnPos := Pos(4, 0)

  predicate WellFormed(b: Board)
  {
    |b| == Height && forall y :: 0 <= y < |b| ==> |b[y]| == Width
  }

  predicate InBounds(x: int, y: int)
  {
    0 <= x < Width && 0 <= y < Height
  }

  /** (x, y) is on the board and unoccupied. */
  predicate Free(b: Board, x: int, y: int)
    requires WellFormed(b)
  {
    InBounds(x, y) && b[y][x] == Empty
  }

  function EmptyRow(): Row
  {
    seq(Width, _ => Empty)
  }

  function EmptyBoard(): Board
  {
    seq(Height, _ => EmptyRow())
  }

  // ---------------------------------------------------------------------------
  // Collision test: nested `every` over the shape's rows and cells.

  /** Every non-zero cell dx.. of one shape row, anchored at (x0, y), lands on a free board cell. */
  predicate RowFree(row: seq<int>, x0: int, y: int, b: Board, dx: nat)
    requires WellFormed(b)
  {
    forall d :: dx <= d < |row| && row[d] != 0 ==> Free(b, x0 + d, y)
  }

  /** Every non-zero cell of rows dy.. of the shape, anchored at pos, lands on a free board cell;
      zero cells impose nothing, even where they would fall off the board. */
  predicate ShapeFree(shape: Shape, pos: Pos, b: Board, dy: nat)
    requires WellFormed(b)
  {
    forall r, d :: dy <= r < |shape| && 0 <= d < |shape[r]| && shape[r][d] != 0 ==>
                     Free(b, pos.x + d, pos.y + r)
  }

  /** Cells dx.. of one shape row fit: the inner `every`, cell by cell. */
  function RowFits(row: seq<int>, x0: int, y: int, b: Board, dx: nat): (ok: bool)
    requires WellFormed(b) && dx <= |row|
    ensures ok <==> RowFree(row, x0, y, b, dx)
    decreases |row| - dx
  {
    dx == |row| || ((row[dx] == 0 || Free(b, x0 + dx, y)) && RowFits(row, x0, y, b, dx + 1))
  }

  /** Rows dy.. of the shape fit at pos: the outer `every`, row by row. */
  function RowsFit(shape: Shape, pos: Pos, b: Board, dy: nat): (ok: bool)
    requires WellFormed(b) && dy <= |shape|
    ensures ok <==> ShapeFree(shape, pos, b, dy)
    decreases |shape| - dy
  {
    if dy == |shape| then true
    else
      var here := RowFits(shape[dy], pos.x, pos.y + dy, b, 0);
      var rest := RowsFit(shape, pos, b, dy + 1);
      assert here && rest ==> ShapeFree(shape, pos, b, dy) by {
        if here && rest {
          forall r, d | dy <= r < |shape| && 0 <= d < |shape[r]| && shape[r][d] != 0
            ensures Free(b, pos.x + d, pos.y + r)
          {
            if r == dy { assert RowFree(shape[dy], pos.x, pos.y + dy, b, 0); }
          }
        }
      }
      here && rest
  }

  /** The source's canPlacePiece. Its meaning is stated by CanPlaceSpec: keeping the quantified
      characterisation out of this function keeps the session proofs, which mention it often, small. */
  function CanPlace(shape: Shape, pos: Pos, b: Board): bool
    requires WellFormed(b)
  {
    RowsFit(shape, pos, b, 0)
  }

  /** The shape can sit at pos exactly when each of its non-zero cells is on the board and
      unoccupied; zero cells impose nothing, even where they would fall off the board. */
  lemma CanPlaceSpec(shape: Shape, pos: Pos, b: Board)
    requires WellFormed(b)
    ensures CanPlace(shape, pos, b) <==>
            forall r, d :: 0 <= r < |shape| && 0 <= d < |shape[r]| && shape[r][d] != 0 ==>
                             Free(b, pos.x + d, pos.y + r)
  {
  }

  /** Every catalog shape fits at the spawn position of an empty board. */
  lemma SpawnFitsOnEmptyBoard(k: Kind)
    ensures CanPlace(ShapeOf(k), SpawnPos, EmptyBoard())
  {
    var s := ShapeOf(k);
    var b := EmptyBoard();
    CanPlaceSpec(s, SpawnPos, b);
    forall r, d | 0 <= r < |s| && 0 <= d < |s[r]| && s[r][d] != 0
      ensures Free(b, SpawnPos.x + d, SpawnPos.y + r)
    {
      assert |s[r]| == |s[0]|;
      assert b[r] == EmptyRow();
    }
  }

  // ---------------------------------------------------------------------------
  // Stamping: copy the board, then write the marker under every 1-cell that is on the board,
  // cell by cell, row by row.

  /** The shape covers (x, y) with a 1-cell when anchored at pos. */
  predicate Covers(shape: Shape, pos: Pos, x: int, y: int)
  {
    0 <= y - pos.y < |shape| && 0 <= x - pos.x < |shape[y - pos.y]| && shape[y - pos.y][x - pos.x] == 1
  }

  /** One guarded cell write; writes off the board are dropped. */
  function WriteCell(b: Board, x: int, y: int, c: Cell): (r: Board)
    requires WellFormed(b)
    ensures WellFormed(r)
  {
    if InBounds(x, y) then b[y := b[y][x := c]] else b
  }

  /** The first k cells of one shape row stamped at (x0, y). */
  function StampRow(b: Board, row: seq<int>, x0: int, y: int, c: Cell, k: nat): (r: Board)
    requires WellFormed(b) && k <= |row|
    ensures WellFormed(r)
  {
    if k == 0 then b
    else
      var prev := StampRow(b, row, x0, y, c, k - 1);
      if row[k - 1] == 1 then WriteCell(prev, x0 + k - 1, y, c) else prev
  }

  /** The first k rows of the shape stamped at pos. */
  function StampRows(b: Board, shape: Shape, pos: Pos, c: Cell, k: nat): (r: Board)
    requires WellFormed(b) && k <= |shape|
    ensures WellFormed(r)
  {
    if k == 0 then b
    else StampRow(StampRows(b, shape, pos, c, k - 1), shape[k - 1], pos.x, pos.y + k - 1, c, |shape[k - 1]|)
  }

  lemma {:induction false} StampRowAt(b: Board, row: seq<int>, x0: int, y: int, c: Cell, k: nat, x: int, y': int)
    requires WellFormed(b) && k <= |row| && InBounds(x, y')
    ensures StampRow(b, row, x0, y, c, k)[y'][x] ==
            if y' == y && x0 <= x < x0 + k && row[x - x0] == 1 then c else b[y'][x]
  {
    if k > 0 {
      StampRowAt(b, row, x0, y, c, k - 1, x, y');
    }
  }

  lemma {:induction false} StampRowsAt(b: Board, shape: Shape, pos: Pos, c: Cell, k: nat, x: int, y: int)
    requires WellFormed(b) && k <= |shape| && InBounds(x, y)
    ensures StampRows(b, shape, pos, c, k)[y][x] ==
            if 0 <= y - pos.y < k && Covers(shape, pos, x, y) then c else b[y][x]
  {
    if k > 0 {
      var prev := StampRows(b, shape, pos, c, k - 1);
      StampRowsAt(b, shape, pos, c, k - 1, x, y);
      StampRowAt(prev, shape[k - 1], pos.x, pos.y + k - 1, c, |shape[k - 1]|, x, y);
    }
  }

  /** The board with the shape stamped at pos: the source's copy-then-write, cell by cell. */
  function Stamp(b: Board, shape: Shape, pos: Pos, c: Cell): (r: Board)
    requires WellFormed(b)
    ensures WellFormed(r)
  {
    StampRows(b, shape, pos, c, |shape|)
  }

  /** Stamping keeps the board's dimensions, writes c at exactly the on-board cells covered by a
      1-cell of the shape, and leaves every other cell as it was. */
  lemma StampSpec(b: Board, shape: Shape, pos: Pos, c: Cell)
    requires WellFormed(b)
    ensures WellFormed(Stamp(b, shape, pos, c))
    ensures forall y, x :: 0 <= y < Height && 0 <= x < Width ==>
              Stamp(b, shape, pos, c)[y][x] == if Covers(shape, pos, x, y) then c else b[y][x]
  {
    forall y, x | 0 <= y < Height && 0 <= x < Width
      ensures Stamp(b, shape, pos, c)[y][x] == if Covers(shape, pos, x, y) then c else b[y][x]
    {
      StampRowsAt(b, shape, pos, c, |shape|, x, y);
    }
  }

  /** The source's placePiece: copy the board, then write the piece's marker cell by cell. */
  method PlacePiece(b: Board, p: Piece, pos: Pos) returns (placed: Board)
    requires WellFormed(b)
    ensures placed == Stamp(b, p.shape, pos, Block(p.kind))
    ensures WellFormed(placed)
  {
    var c := Block(p.kind);
    placed := b;
    var dy := 0;
    while dy < |p.shape|
      invariant 0 <= dy <= |p.shape|
      invariant placed == StampRows(b, p.shape, pos, c, dy)
    {
      var row := p.shape[dy];
      var dx := 0;
      while dx < |row|
        invariant 0 <= dx <= |row|
        invariant placed == StampRow(StampRows(b, p.shape, pos, c, dy), row, pos.x, pos.y + dy, c, dx)
      {
        if row[dx] == 1 {
          var x, y := pos.x + dx, pos.y + dy;
          if 0 <= y < Height && 0 <= x < Width {
            placed := placed[y := placed[y][x := c]];
          }
        }
        dx := dx + 1;
      }
      dy := dy + 1;
    }
  }

  /** When the piece fits, stamping only fills cells that were empty: every occupied cell of the
      board is left as it was, and every covered cell was free. */
  lemma StampKeepsLockedCells(b: Board, shape: Shape, pos: Pos, c: Cell)
    requires WellFormed(b) && CanPlace(shape, pos, b)
    ensures forall y, x :: 0 <= y < Height && 0 <= x < Width && b[y][x] != Empty ==>
              Stamp(b, shape, pos, c)[y][x] == b[y][x]
    ensures forall y, x :: 0 <= y < Height && 0 <= x < Width && Covers(shape, pos, x, y) ==>
              b[y][x] == Empty && Stamp(b, shape, pos, c)[y][x] == c
  {
    StampSpec(b, shape, pos, c);
    CanPlaceSpec(shape, pos, b);
    forall y, x | 0 <= y < Height && 0 <= x < Width && Covers(shape, pos, x, y)
      ensures b[y][x] == Empty
    {
      var dy, dx := y - pos.y, x - pos.x;
      assert shape[dy][dx] != 0;
      assert Free(b, pos.x + dx, pos.y + dy);
    }
  }
}
