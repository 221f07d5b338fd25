/** The piece catalog and the clockwise rotation of a shape matrix (src/App.tsx). */
module Pieces {

  /** The seven tetromino kinds, keyed by their letters. */
  datatype Kind = I | O | T | S | Z | J | L

  /** A shape is a matrix of 0/1 cells, row 0 on top. */
  type Shape = seq<seq<int>>

  /** A piece: its kind (which fixes colour and name) and its current, possibly rotated, shape. */
  datatype Piece = Piece(kind: Kind, shape: Shape)

  /** A non-empty rectangular matrix: at least one row, at least one column, all rows equally long. */
  predicate Rect(s: Shape)
  {
    |s| > 0 && |s[0]| > 0 && forall r :: 0 <= r < |s| ==> |s[r]| == |s[0]|
  }

  /** Every cell is 0 or 1. */
  predicate Binary(s: Shape)
  {
    forall r, c :: 0 <= r < |s| && 0 <= c < |s[r]| ==> s[r][c] == 0 || s[r][c] == 1
  }

  /** The canonical orientation of each kind, as stored in the catalog. */
  function ShapeOf(k: Kind): (s: Shape)
    ensures Rect(s) && Binary(s)
    ensures |s| <= 2 && |s[0]| <= 4
  {
    match k
    case I => [[1, 1, 1, 1]]
    case O => [[1, 1], [1, 1]]
    case T => [[0, 1, 0], [1, 1, 1]]
    case S => [[0, 1, 1], [1, 1, 0]]
    case Z => [[1, 1, 0], [0, 1, 1]]
    case J => [[1, 0, 0], [1, 1, 1]]
    case L => [[0, 0, 1], [1, 1, 1]]
  }

  /** A freshly drawn piece: it carries the drawn kind (hence its colour and name) and the
      catalog orientation of that kind. */
  function Spawned(k: Kind): (p: Piece)
    ensures p.kind == k
  {
    Piece(k, ShapeOf(k))
  }

  /** The sequence read back to front. */
  function Reverse(s: seq<int>): (r: seq<int>)
    ensures |r| == |s|
    ensures forall k :: 0 <= k < |s| ==> r[k] == s[|s| - 1 - k]
  {
    if s == [] then [] else Reverse(s[1..]) + [s[0]]
  }

  /** Column i of a rectangular matrix, read top to bottom. */
  function Column(s: Shape, i: nat): (col: seq<int>)
    requires Rect(s) && i < |s[0]|
  {
    seq(|s|, j requires 0 <= j < |s| => s[j][i])
  }

  /** Clockwise quarter turn: column i, read bottom to top, becomes row i. An R x C shape
      becomes a C x R shape. */
  function Rotate(s: Shape): (r: Shape)
    requires Rect(s)
    ensures Rect(r) && |r| == |s[0]| && |r[0]| == |s|
  {
    seq(|s[0]|, i requires 0 <= i < |s[0]| => Reverse(Column(s, i)))
  }

  /** The rotation's index formula, new[i][j] == old[R-1-j][i]; a 0/1 shape stays 0/1. */
  lemma RotateSpec(s: Shape)
    requires Rect(s)
    ensures forall i, j :: 0 <= i < |s[0]| && 0 <= j < |s| ==> Rotate(s)[i][j] == s[|s| - 1 - j][i]
    ensures Binary(s) ==> Binary(Rotate(s))
  {
    var r := Rotate(s);
    forall i, j | 0 <= i < |s[0]| && 0 <= j < |s| ensures r[i][j] == s[|s| - 1 - j][i] {
      assert r[i] == Reverse(Column(s, i));
    }
  }

  /** Two quarter turns turn the matrix upside down and mirror it. */
  lemma HalfTurn(s: Shape)
    requires Rect(s)
    ensures Rect(Rotate(Rotate(s)))
    ensures |Rotate(Rotate(s))| == |s| && |Rotate(Rotate(s))[0]| == |s[0]|
    ensures forall i, j :: 0 <= i < |s| && 0 <= j < |s[0]| ==>
              Rotate(Rotate(s))[i][j] == s[|s| - 1 - i][|s[0]| - 1 - j]
  {
    var r1 := Rotate(s);
    var r2 := Rotate(r1);
    RotateSpec(s);
    RotateSpec(r1);
    forall i, j | 0 <= i < |s| && 0 <= j < |s[0]|
      ensures r2[i][j] == s[|s| - 1 - i][|s[0]| - 1 - j]
    {
      assert r2[i][j] == r1[|r1| - 1 - j][i];
    }
  }

  /** Four quarter turns give back the original shape. */
  lemma FullTurn(s: Shape)
    requires Rect(s)
    ensures Rotate(Rotate(Rotate(Rotate(s)))) == s
  {
    var h := Rotate(Rotate(s));
    HalfTurn(s);
    HalfTurn(h);
    var f := Rotate(Rotate(h));
    assert |f| == |s|;
    forall i | 0 <= i < |s| ensures f[i] == s[i] {
      assert |f[i]| == |s[i]|;
      forall j | 0 <= j < |s[i]| ensures f[i][j] == s[i][j] {
        assert f[i][j] == h[|s| - 1 - i][|s[0]| - 1 - j];
      }
    }
  }

  /** The Shield (O) shape is a fixed point of rotation: rotation is not special-cased by kind. */
  lemma ShieldIsRotationInvariant()
    ensures Rotate(ShapeOf(O)) == ShapeOf(O)
  {
    var s := ShapeOf(O);
    var r := Rotate(s);
    RotateSpec(s);
    forall i | 0 <= i < 2 ensures r[i] == s[i] {
      forall j | 0 <= j < 2 ensures r[i][j] == s[i][j] {
        assert r[i][j] == s[1 - j][i];
      }
    }
  }

  /** Rotating a piece replaces its shape only; its kind (hence colour and name) is kept. */
  function Rotated(p: Piece): (q: Piece)
    requires Rect(p.shape)
    ensures q.kind == p.kind && Rect(q.shape)
    ensures |q.shape| == |p.shape[0]| && |q.shape[0]| == |p.shape|
  {
    p.(shape := Rotate(p.shape))
  }

  /** Four rotations of a piece give back the same piece. */
  lemma RotatedFourTimes(p: Piece)
    requires Rect(p.shape)
    ensures Rotated(Rotated(Rotated(Rotated(p)))) == p
  {
    FullTurn(p.shape);
  }
}
