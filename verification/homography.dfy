/**
 * The closed-form part of the homography helpers: the input check and the
 * coefficient matrix of the direct linear transform (DLT), the transpose and
 * product that form its normal matrix, the normalisation of the null vector,
 * the column-major packing handed to the GPU, the 3x3 inverse, the
 * projective point transform and bilinear interpolation over a quad.
 *
 * Arithmetic is exact over `real`. The iterative eigenvector search is not
 * modelled: it is a parameter (`solver`) of the operations that use it.
 */
module Homography {
  import opened Types

  type Matrix = seq<seq<real>>

  /** A non-empty matrix whose rows all have the length of the first, which
      is not zero; the number of columns is read from the first row. */
  predicate IsMatrix(A: Matrix) {
    |A| > 0 && |A[0]| > 0 && forall i :: 0 <= i < |A| ==> |A[i]| == |A[0]|
  }

  function Cols(A: Matrix): nat
    requires IsMatrix(A)
  {
    |A[0]|
  }

  // ----------------------------------------------------------------- transpose

  /** The transpose of a matrix. */
  function Transposed(A: Matrix): (At: Matrix)
    requires IsMatrix(A)
    ensures IsMatrix(At) && |At| == Cols(A) && Cols(At) == |A|
    ensures forall j, i :: 0 <= j < Cols(A) && 0 <= i < |A| ==> At[j][i] == A[i][j]
  {
    seq(Cols(A), j requires 0 <= j < Cols(A) => seq(|A|, i requires 0 <= i < |A| => A[i][j]))
  }

  /** Transposing twice gives the matrix back. */
  lemma TransposeTwice(A: Matrix)
    requires IsMatrix(A)
    ensures Transposed(Transposed(A)) == A
  {
    var B := Transposed(Transposed(A));
    assert |B| == |A|;
    forall i | 0 <= i < |A| ensures B[i] == A[i] {
      assert |B[i]| == |A[i]|;
    }
  }

  /** Column by column, row by row, as the source fills its result. */
  method Transpose(A: Matrix) returns (At: Matrix)
    requires IsMatrix(A)
    ensures At == Transposed(A)
  {
    var rows, cols := |A|, |A[0]|;
    At := [];
    var j := 0;
    while j < cols
      invariant 0 <= j <= cols
      invariant |At| == j
      invariant forall j' :: 0 <= j' < j ==> At[j'] == Transposed(A)[j']
    {
      var column: seq<real> := [];
      var i := 0;
      while i < rows
        invariant 0 <= i <= rows
        invariant |column| == i
        invariant forall i' :: 0 <= i' < i ==> column[i'] == A[i'][j]
      {
        column := column + [A[i][j]];
        i := i + 1;
      }
      At := At + [column];
      j := j + 1;
    }
  }

  // ------------------------------------------------------------------ product

  /** `A[i][0] * B[0][j] + ... + A[i][n-1] * B[n-1][j]`, summed left to right. */
  function DotCol(A: Matrix, B: Matrix, i: nat, j: nat, n: nat): real
    requires i < |A| && n <= |A[i]| && n <= |B|
    requires forall k :: 0 <= k < n ==> j < |B[k]|
  {
    if n == 0 then 0.0 else DotCol(A, B, i, j, n - 1) + A[i][n - 1] * B[n - 1][j]
  }

  /** The matrix product of an r x k and a k x c matrix. */
  function Product(A: Matrix, B: Matrix): (C: Matrix)
    requires IsMatrix(A) && IsMatrix(B) && Cols(A) == |B|
    ensures IsMatrix(C) && |C| == |A| && Cols(C) == Cols(B)
    ensures forall i, j :: 0 <= i < |A| && 0 <= j < Cols(B) ==> C[i][j] == DotCol(A, B, i, j, Cols(A))
  {
    seq(|A|, i requires 0 <= i < |A| =>
      seq(Cols(B), j requires 0 <= j < Cols(B) => DotCol(A, B, i, j, Cols(A))))
  }

  /** Entry (i, j) of the normal matrix AᵀA sums the same products as entry (j, i). */
  lemma {:induction false} NormalEntrySymmetric(A: Matrix, i: nat, j: nat, n: nat)
    requires IsMatrix(A) && i < Cols(A) && j < Cols(A) && n <= |A|
    ensures DotCol(Transposed(A), A, i, j, n) == DotCol(Transposed(A), A, j, i, n)
  {
    if n > 0 {
      NormalEntrySymmetric(A, i, j, n - 1);
      var At := Transposed(A);
      assert At[i][n - 1] * A[n - 1][j] == A[n - 1][i] * A[n - 1][j];
      assert At[j][n - 1] * A[n - 1][i] == A[n - 1][j] * A[n - 1][i];
    }
  }

  /** The normal matrix AᵀA built by `solveSVD` is square and symmetric. */
  lemma NormalMatrixSymmetric(A: Matrix)
    requires IsMatrix(A)
    ensures var M := Product(Transposed(A), A);
            |M| == Cols(A) && Cols(M) == Cols(A) &&
            forall i, j :: 0 <= i < Cols(A) && 0 <= j < Cols(A) ==> M[i][j] == M[j][i]
  {
    forall i, j | 0 <= i < Cols(A) && 0 <= j < Cols(A)
      ensures DotCol(Transposed(A), A, i, j, |A|) == DotCol(Transposed(A), A, j, i, |A|)
    {
      NormalEntrySymmetric(A, i, j, |A|);
    }
  }

  /** Row by row, entry by entry, accumulating each entry from 0. */
  method Multiply(A: Matrix, B: Matrix) returns (C: Matrix)
    requires IsMatrix(A) && IsMatrix(B) && Cols(A) == |B|
    ensures C == Product(A, B)
  {
    var rowsA, colsA, colsB := |A|, |A[0]|, |B[0]|;
    C := [];
    var i := 0;
    while i < rowsA
      invariant 0 <= i <= rowsA
      invariant |C| == i
      invariant forall i' :: 0 <= i' < i ==> C[i'] == Product(A, B)[i']
    {
      var row: seq<real> := [];
      var j := 0;
      while j < colsB
        invariant 0 <= j <= colsB
        invariant |row| == j
        invariant forall j' :: 0 <= j' < j ==> row[j'] == DotCol(A, B, i, j', colsA)
      {
        var acc := 0.0;
        var k := 0;
        while k < colsA
          invariant 0 <= k <= colsA
          invariant acc == DotCol(A, B, i, j, k)
        {
          acc := acc + A[i][k] * B[k][j];
          k := k + 1;
        }
        row := row + [acc];
        j := j + 1;
      }
      C := C + [row];
      i := i + 1;
    }
  }

  // ------------------------------------------------------ the DLT coefficients

  /** The row a correspondence p -> q contributes for the x coordinate. */
  function RowX(p: Vec2, q: Vec2): seq<real> {
    [-p.x, -p.y, -1.0, 0.0, 0.0, 0.0, p.x * q.x, p.y * q.x, q.x]
  }

  /** The row a correspondence p -> q contributes for the y coordinate. */
  function RowY(p: Vec2, q: Vec2): seq<real> {
    [0.0, 0.0, 0.0, -p.x, -p.y, -1.0, p.x * q.y, p.y * q.y, q.y]
  }

  /** The rows of the first n point pairs, two per pair, in pair order. */
  function Pairs(src: seq<Vec2>, dst: seq<Vec2>, n: nat): (A: Matrix)
    requires n <= |src| && n <= |dst|
    ensures |A| == 2 * n
    ensures forall r :: 0 <= r < |A| ==> |A[r]| == 9
  {
    if n == 0 then [] else Pairs(src, dst, n - 1) + [RowX(src[n - 1], dst[n - 1]), RowY(src[n - 1], dst[n - 1])]
  }

  /** The 8 x 9 coefficient matrix of four point pairs. */
  function DLTMatrix(src: seq<Vec2>, dst: seq<Vec2>): (A: Matrix)
    requires |src| == 4 && |dst| == 4
    ensures |A| == 8 && IsMatrix(A) && Cols(A) == 9
  {
    Pairs(src, dst, 4)
  }

  /** Pair i contributes rows 2i and 2i + 1. */
  lemma {:induction false} PairsRows(src: seq<Vec2>, dst: seq<Vec2>, n: nat)
    requires n <= |src| && n <= |dst|
    ensures forall i :: 0 <= i < n ==>
              Pairs(src, dst, n)[2 * i] == RowX(src[i], dst[i]) &&
              Pairs(src, dst, n)[2 * i + 1] == RowY(src[i], dst[i])
  {
    if n > 0 {
      PairsRows(src, dst, n - 1);
    }
  }

  /** Pushes the two rows of each pair in turn. */
  method BuildCoefficients(src: seq<Vec2>, dst: seq<Vec2>) returns (A: Matrix)
    requires |src| == 4 && |dst| == 4
    ensures A == DLTMatrix(src, dst)
  {
    A := [];
    var i := 0;
    while i < 4
      invariant 0 <= i <= 4
      invariant A == Pairs(src, dst, i)
    {
      A := A + [RowX(src[i], dst[i]), RowY(src[i], dst[i])];
      i := i + 1;
    }
  }

  /** The product of a 9-entry row with a 9-vector. */
  function Apply9(row: seq<real>, h: seq<real>): real
    requires |row| == 9 && |h| == 9
  {
    row[0] * h[0] + row[1] * h[1] + row[2] * h[2] + row[3] * h[3] + row[4] * h[4] +
    row[5] * h[5] + row[6] * h[6] + row[7] * h[7] + row[8] * h[8]
  }

  /** The homogeneous weight of p under h read as a row-major 3 x 3 matrix. */
  function W(h: seq<real>, p: Vec2): real
    requires |h| >= 9
  {
    h[6] * p.x + h[7] * p.y + h[8]
  }

  /** The homogeneous x and y of p under h read as a row-major 3 x 3 matrix. */
  function NX(h: seq<real>, p: Vec2): real
    requires |h| >= 9
  {
    h[0] * p.x + h[1] * p.y + h[2]
  }

  function NY(h: seq<real>, p: Vec2): real
    requires |h| >= 9
  {
    h[3] * p.x + h[4] * p.y + h[5]
  }

  /** h, read row-major, sends p to q in homogeneous coordinates. */
  predicate Maps(h: seq<real>, p: Vec2, q: Vec2)
    requires |h| == 9
  {
    NX(h, p) == q.x * W(h, p) && NY(h, p) == q.y * W(h, p)
  }

  lemma RowXValue(p: Vec2, q: Vec2, h: seq<real>)
    requires |h| == 9
    ensures Apply9(RowX(p, q), h) == q.x * W(h, p) - NX(h, p)
  {
    var r := RowX(p, q);
    assert r[6] * h[6] + r[7] * h[7] + r[8] * h[8] == q.x * W(h, p);
  }

  lemma RowYValue(p: Vec2, q: Vec2, h: seq<real>)
    requires |h| == 9
    ensures Apply9(RowY(p, q), h) == q.y * W(h, p) - NY(h, p)
  {
    var r := RowY(p, q);
    assert r[6] * h[6] + r[7] * h[7] + r[8] * h[8] == q.y * W(h, p);
  }

  /** Every row of A vanishes on h. */
  predicate Annihilates(A: Matrix, h: seq<real>)
    requires |h| == 9 && forall r :: 0 <= r < |A| ==> |A[r]| == 9
  {
    forall r :: 0 <= r < |A| ==> Apply9(A[r], h) == 0.0
  }

  /** The rows of the first n pairs vanish on h exactly when h maps each of
      those pairs. */
  lemma {:induction false} PairsNullSpace(src: seq<Vec2>, dst: seq<Vec2>, n: nat, h: seq<real>)
    requires n <= |src| && n <= |dst| && |h| == 9
    ensures Annihilates(Pairs(src, dst, n), h) <==> forall i :: 0 <= i < n ==> Maps(h, src[i], dst[i])
  {
    if n > 0 {
      PairsNullSpace(src, dst, n - 1, h);
      var P, rx, ry := Pairs(src, dst, n - 1), RowX(src[n - 1], dst[n - 1]), RowY(src[n - 1], dst[n - 1]);
      assert Pairs(src, dst, n) == P + [rx, ry];
      PairRows(src[n - 1], dst[n - 1], h);
      assert Annihilates(Pairs(src, dst, n), h) <==>
             Annihilates(P, h) && Apply9(rx, h) == 0.0 && Apply9(ry, h) == 0.0 by {
        var Q := P + [rx, ry];
        assert forall r :: 0 <= r < |P| ==> Q[r] == P[r];
        assert Q[|P|] == rx && Q[|P| + 1] == ry;
      }
    }
  }

  /** The null space of the coefficient matrix is exactly the set of
      row-major matrices that send every source point to its destination. */
  lemma DLTNullSpace(src: seq<Vec2>, dst: seq<Vec2>, h: seq<real>)
    requires |src| == 4 && |dst| == 4 && |h| == 9
    ensures Annihilates(DLTMatrix(src, dst), h) <==> forall i :: 0 <= i < 4 ==> Maps(h, src[i], dst[i])
  {
    PairsNullSpace(src, dst, 4, h);
  }

  /** The two rows of a pair vanish on h exactly when h maps the pair. */
  lemma PairRows(p: Vec2, q: Vec2, h: seq<real>)
    requires |h| == 9
    ensures (Apply9(RowX(p, q), h) == 0.0 && Apply9(RowY(p, q), h) == 0.0) <==> Maps(h, p, q)
  {
    var mx, my := NX(h, p) == q.x * W(h, p), NY(h, p) == q.y * W(h, p);
    assert Maps(h, p, q) <==> mx && my;
    RowXValue(p, q, h);
    RowYValue(p, q, h);
  }

  // ------------------------------------------------------------ normalisation

  /** `eigenvector[8] || 1`: the last entry, or 1 when it is zero. */
  function Scale(ev: seq<real>): real
    requires |ev| == 9
  {
    if ev[8] == 0.0 then 1.0 else ev[8]
  }

  /** Divides every entry by the scale. */
  function Normalize(ev: seq<real>): (h: seq<real>)
    requires |ev| == 9
    ensures |h| == 9
  {
    seq(9, k requires 0 <= k < 9 => ev[k] / Scale(ev))
  }

  /** After normalisation the last entry is 1 unless it was 0, and every
      entry is the original one divided by a common non-zero factor. */
  lemma NormalizeProperties(ev: seq<real>)
    requires |ev| == 9
    ensures Scale(ev) != 0.0
    ensures forall k :: 0 <= k < 9 ==> Normalize(ev)[k] * Scale(ev) == ev[k]
    ensures ev[8] != 0.0 ==> Normalize(ev)[8] == 1.0
    ensures ev[8] == 0.0 ==> Normalize(ev) == ev
  {
    var h := Normalize(ev);
    if ev[8] == 0.0 {
      assert Scale(ev) == 1.0;
      forall k | 0 <= k < 9 ensures h[k] == ev[k] {
        assert h[k] == ev[k] / 1.0;
      }
    }
  }

  /** Scaling a vector keeps it in the null space of a row. */
  lemma NormalizeKeepsNullSpace(row: seq<real>, ev: seq<real>)
    requires |row| == 9 && |ev| == 9
    ensures Apply9(row, ev) == 0.0 <==> Apply9(row, Normalize(ev)) == 0.0
  {
    NormalizeProperties(ev);
    ScaledApply(row, Normalize(ev), ev, Scale(ev));
  }

  /** If h times s is ev entrywise, then row.h times s is row.ev. */
  lemma ScaledApply(row: seq<real>, h: seq<real>, ev: seq<real>, s: real)
    requires |row| == 9 && |h| == 9 && |ev| == 9 && s != 0.0
    requires forall k :: 0 <= k < 9 ==> h[k] * s == ev[k]
    ensures Apply9(row, ev) == 0.0 <==> Apply9(row, h) == 0.0
  {
    ScaledTerm(row[0], h[0], ev[0], s);
    ScaledTerm(row[1], h[1], ev[1], s);
    ScaledTerm(row[2], h[2], ev[2], s);
    ScaledTerm(row[3], h[3], ev[3], s);
    ScaledTerm(row[4], h[4], ev[4], s);
    ScaledTerm(row[5], h[5], ev[5], s);
    ScaledTerm(row[6], h[6], ev[6], s);
    ScaledTerm(row[7], h[7], ev[7], s);
    ScaledTerm(row[8], h[8], ev[8], s);
    SumTimes(row[0] * h[0], row[1] * h[1], row[2] * h[2], row[3] * h[3], row[4] * h[4],
             row[5] * h[5], row[6] * h[6], row[7] * h[7], row[8] * h[8], s);
    ZeroProduct(Apply9(row, h), s);
  }

  lemma ZeroProduct(x: real, s: real)
    requires s != 0.0
    ensures x * s == 0.0 <==> x == 0.0
  {
  }

  lemma ScaledTerm(r: real, y: real, x: real, s: real)
    requires y * s == x
    ensures r * y * s == r * x
  {
  }

  lemma SumTimes(a0: real, a1: real, a2: real, a3: real, a4: real, a5: real, a6: real, a7: real, a8: real, s: real)
    ensures (a0 + a1 + a2 + a3 + a4 + a5 + a6 + a7 + a8) * s ==
            a0 * s + a1 * s + a2 * s + a3 * s + a4 * s + a5 * s + a6 * s + a7 * s + a8 * s
  {
  }

  /** `solveSVD`: the normal matrix AᵀA, its eigenvector from the solver,
      normalised. */
  method SolveSVD(A: Matrix, solver: Matrix -> seq<real>) returns (h: seq<real>)
    requires IsMatrix(A)
    requires forall M :: |solver(M)| == 9
    ensures h == Normalize(solver(Product(Transposed(A), A)))
  {
    var At := Transpose(A);
    var AtA := Multiply(At, A);
    h := Normalize(solver(AtA));
  }

  // ------------------------------------------------------------------ packing

  /** The nine coefficients in column-major order, as WebGL reads a `mat3`. */
  function ColumnMajor(h: seq<real>): (m: seq<real>)
    requires |h| == 9
    ensures |m| == 9
  {
    [h[0], h[3], h[6], h[1], h[4], h[7], h[2], h[5], h[8]]
  }

  /** Entry (row r, column c) of the row-major matrix lands at index 3c + r,
      and packing twice gives the coefficients back. */
  lemma ColumnMajorLayout(h: seq<real>)
    requires |h| == 9
    ensures forall r, c :: 0 <= r < 3 && 0 <= c < 3 ==> ColumnMajor(h)[3 * c + r] == h[3 * r + c]
    ensures ColumnMajor(ColumnMajor(h)) == h
  {
    var m := ColumnMajor(h);
    forall r, c | 0 <= r < 3 && 0 <= c < 3 ensures m[3 * c + r] == h[3 * r + c] {
      if r == 0 { if c == 0 {} else if c == 1 {} else {} }
    }
  }

  // -------------------------------------------------------- calculateHomography

  const HomographyError := "Homography requires exactly 4 point pairs"

  /** What `calculateHomography` returns for the point pairs `src[i] -> dst[i]`
      when the null vector of the normal matrix comes from `solver`. */
  function HomographyOf(src: seq<Vec2>, dst: seq<Vec2>, solver: Matrix -> seq<real>): (r: Result<seq<real>>)
    requires forall M :: |solver(M)| == 9
    ensures r.Failure? <==> |src| != 4 || |dst| != 4
    ensures r.Success? ==> |r.value| == 9
  {
    if |src| != 4 || |dst| != 4 then Failure(HomographyError)
    else
      var A := DLTMatrix(src, dst);
      Success(ColumnMajor(Normalize(solver(Product(Transposed(A), A)))))
  }

  /** The result's last entry is 1 unless the solver's vector ends in 0. */
  lemma HomographyLastEntry(src: seq<Vec2>, dst: seq<Vec2>, solver: Matrix -> seq<real>)
    requires forall M :: |solver(M)| == 9
    requires |src| == 4 && |dst| == 4
    ensures var A := DLTMatrix(src, dst);
            var ev := solver(Product(Transposed(A), A));
            ev[8] != 0.0 ==> HomographyOf(src, dst, solver).value[8] == 1.0
  {
    var A := DLTMatrix(src, dst);
    NormalizeProperties(solver(Product(Transposed(A), A)));
  }

  /** If the solver's vector lies in the null space of the coefficient
      matrix, the result, read back from column-major order, sends every
      source point to its destination. */
  lemma HomographyMapsPairs(src: seq<Vec2>, dst: seq<Vec2>, solver: Matrix -> seq<real>)
    requires forall M :: |solver(M)| == 9
    requires |src| == 4 && |dst| == 4
    requires var A := DLTMatrix(src, dst);
             var ev := solver(Product(Transposed(A), A));
             Annihilates(A, ev)
    ensures forall i :: 0 <= i < 4 ==>
              Maps(ColumnMajor(HomographyOf(src, dst, solver).value), src[i], dst[i])
  {
    var A := DLTMatrix(src, dst);
    var ev := solver(Product(Transposed(A), A));
    var h := Normalize(ev);
    forall r | 0 <= r < 8 ensures Apply9(A[r], h) == 0.0 {
      NormalizeKeepsNullSpace(A[r], ev);
    }
    assert Annihilates(A, h);
    DLTNullSpace(src, dst, h);
    ColumnMajorLayout(h);
  }

  method CalculateHomography(src: seq<Vec2>, dst: seq<Vec2>, solver: Matrix -> seq<real>) returns (r: Result<seq<real>>)
    requires forall M :: |solver(M)| == 9
    ensures r == HomographyOf(src, dst, solver)
  {
    if |src| != 4 || |dst| != 4 {
      return Failure(HomographyError);
    }
    var A := BuildCoefficients(src, dst);
    var h := SolveSVD(A, solver);
    r := Success(ColumnMajor(h));
  }

  /** The rectangle (0,0), (w,0), (w,h), (0,h) mapped onto `corners`. */
  method CreatePerspectiveTransform(corners: seq<Vec2>, width: real, height: real, solver: Matrix -> seq<real>)
    returns (r: Result<seq<real>>)
    requires forall M :: |solver(M)| == 9
    ensures r.Failure? <==> |corners| != 4
    ensures r == HomographyOf([Vec2(0.0, 0.0), Vec2(width, 0.0), Vec2(width, height), Vec2(0.0, height)], corners, solver)
  {
    var src := [Vec2(0.0, 0.0), Vec2(width, 0.0), Vec2(width, height), Vec2(0.0, height)];
    r := CalculateHomography(src, corners, solver);
  }

  // ------------------------------------------------------------ transformPoint

  const Identity: seq<real> := [1.0, 0.0, 0.0, 0.0, 1.0, 0.0, 0.0, 0.0, 1.0]

  /** Applies h, read row-major, to p; a zero homogeneous weight (where the
      source divides by zero) gives `None`. */
  function TransformPoint(p: Vec2, h: seq<real>): (q: Option<Vec2>)
    requires |h| >= 9
    ensures q.None? <==> W(h, p) == 0.0
  {
    var w := W(h, p);
    if w == 0.0 then None else Some(Vec2(NX(h, p) / w, NY(h, p) / w))
  }

  /** The identity leaves every point where it is. */
  lemma TransformByIdentity(p: Vec2)
    ensures TransformPoint(p, Identity) == Some(p)
  {
    var h := Identity;
    assert h[0] == 1.0 && h[1] == 0.0 && h[2] == 0.0 && h[3] == 0.0 && h[4] == 1.0;
    assert h[5] == 0.0 && h[6] == 0.0 && h[7] == 0.0 && h[8] == 1.0;
    assert W(h, p) == 1.0 && NX(h, p) == p.x && NY(h, p) == p.y;
  }

  /** With a non-zero weight, `TransformPoint` lands on q exactly when h maps p to q. */
  lemma TransformPointMaps(h: seq<real>, p: Vec2, q: Vec2)
    requires |h| == 9 && W(h, p) != 0.0
    ensures TransformPoint(p, h) == Some(q) <==> Maps(h, p, q)
  {
    DivideIff(NX(h, p), W(h, p), q.x);
    DivideIff(NY(h, p), W(h, p), q.y);
  }

  lemma DivideIff(n: real, w: real, x: real)
    requires w != 0.0
    ensures n / w == x <==> n == x * w
  {
    if n / w == x {
      assert n == (n / w) * w;
    }
  }

  /** `transformPoint` reading its argument as the column-major array that
      `calculateHomography` returns, as its own comment says it does. */
  function TransformPacked(p: Vec2, m: seq<real>): Option<Vec2>
    requires |m| == 9
  {
    TransformPoint(p, ColumnMajor(m))
  }

  /** Read back from column-major order, the result of `calculateHomography`
      sends each source point to its destination whenever the solver's vector
      is an exact null vector and the weights are not zero. */
  lemma PackedTransformMapsPairs(src: seq<Vec2>, dst: seq<Vec2>, solver: Matrix -> seq<real>)
    requires forall M :: |solver(M)| == 9
    requires |src| == 4 && |dst| == 4
    requires var A := DLTMatrix(src, dst);
             Annihilates(A, solver(Product(Transposed(A), A)))
    requires forall i :: 0 <= i < 4 ==> W(ColumnMajor(HomographyOf(src, dst, solver).value), src[i]) != 0.0
    ensures forall i :: 0 <= i < 4 ==> TransformPacked(src[i], HomographyOf(src, dst, solver).value) == Some(dst[i])
  {
    var h := ColumnMajor(HomographyOf(src, dst, solver).value);
    HomographyMapsPairs(src, dst, solver);
    forall i | 0 <= i < 4 ensures TransformPoint(src[i], h) == Some(dst[i]) {
      TransformPointMaps(h, src[i], dst[i]);
    }
  }

  /** The engine's unit square moved one unit to the right. */
  const SquareCorners := [Vec2(-1.0, -1.0), Vec2(1.0, -1.0), Vec2(1.0, 1.0), Vec2(-1.0, 1.0)]
  const ShiftedCorners := [Vec2(0.0, -1.0), Vec2(2.0, -1.0), Vec2(2.0, 1.0), Vec2(0.0, 1.0)]
  /** The translation by (1, 0), row-major. */
  const ShiftRight: seq<real> := [1.0, 0.0, 1.0, 0.0, 1.0, 0.0, 0.0, 0.0, 1.0]

  /** As written: for the square shifted right, with a solver that returns
      the exact translation, `calculateHomography` succeeds and the packed
      result read back is the translation; yet `transformPoint` applied to
      that result, reading it row-major, sends the corner (1, -1) to
      (0.5, -0.5) instead of (2, -1). */
  lemma TransformPointMisreadsPacked()
    ensures var solver := (M: Matrix) => ShiftRight;
            var r := HomographyOf(SquareCorners, ShiftedCorners, solver);
            var A := DLTMatrix(SquareCorners, ShiftedCorners);
            Annihilates(A, ShiftRight) &&
            r == Success(ColumnMajor(ShiftRight)) &&
            TransformPoint(Vec2(1.0, -1.0), r.value) == Some(Vec2(0.5, -0.5)) &&
            TransformPacked(Vec2(1.0, -1.0), r.value) == Some(Vec2(2.0, -1.0))
  {
    var solver := (M: Matrix) => ShiftRight;
    ShiftSolvesSquare();
    var A := DLTMatrix(SquareCorners, ShiftedCorners);
    var ev := solver(Product(Transposed(A), A));
    assert ev == ShiftRight;
    NormalizeProperties(ShiftRight);
    assert Normalize(ShiftRight) == ShiftRight;
    ShiftReadBothWays();
  }

  /** The translation is an exact null vector of the shifted square's
      coefficient matrix. */
  lemma ShiftSolvesSquare()
    ensures Annihilates(DLTMatrix(SquareCorners, ShiftedCorners), ShiftRight)
  {
    var t := ShiftRight;
    forall i | 0 <= i < 4 ensures Maps(t, SquareCorners[i], ShiftedCorners[i]) {
      assert W(t, SquareCorners[i]) == 1.0;
    }
    DLTNullSpace(SquareCorners, ShiftedCorners, t);
  }

  lemma ShiftReadBothWays()
    ensures TransformPoint(Vec2(1.0, -1.0), ColumnMajor(ShiftRight)) == Some(Vec2(0.5, -0.5))
    ensures TransformPacked(Vec2(1.0, -1.0), ColumnMajor(ShiftRight)) == Some(Vec2(2.0, -1.0))
  {
    var t := ShiftRight;
    var m := ColumnMajor(t);
    assert W(m, Vec2(1.0, -1.0)) == 2.0 && NX(m, Vec2(1.0, -1.0)) == 1.0 && NY(m, Vec2(1.0, -1.0)) == -1.0;
    ColumnMajorLayout(t);
    assert W(t, Vec2(1.0, -1.0)) == 1.0 && NX(t, Vec2(1.0, -1.0)) == 2.0 && NY(t, Vec2(1.0, -1.0)) == -1.0;
  }

  // ----------------------------------------------------------------- inverse

  /** A 3 x 3 matrix, entries row-major: the nine numbers of the array
      `invertHomography` takes and returns. */
  datatype Mat3 = Mat3(m0: real, m1: real, m2: real, m3: real, m4: real, m5: real, m6: real, m7: real, m8: real)

  const Identity3 := Mat3(1.0, 0.0, 0.0, 0.0, 1.0, 0.0, 0.0, 0.0, 1.0)

  function Det(h: Mat3): real {
    h.m0 * (h.m4 * h.m8 - h.m5 * h.m7) -
    h.m1 * (h.m3 * h.m8 - h.m5 * h.m6) +
    h.m2 * (h.m3 * h.m7 - h.m4 * h.m6)
  }

  /** The adjugate (transposed cofactor matrix) of h. */
  function Adjugate(h: Mat3): Mat3 {
    Mat3(h.m4 * h.m8 - h.m5 * h.m7, h.m2 * h.m7 - h.m1 * h.m8, h.m1 * h.m5 - h.m2 * h.m4,
         h.m5 * h.m6 - h.m3 * h.m8, h.m0 * h.m8 - h.m2 * h.m6, h.m2 * h.m3 - h.m0 * h.m5,
         h.m3 * h.m7 - h.m4 * h.m6, h.m1 * h.m6 - h.m0 * h.m7, h.m0 * h.m4 - h.m1 * h.m3)
  }

  function Abs(x: real): real { if x < 0.0 then -x else x }

  /** The singularity threshold on the determinant. */
  const SingularBelow: real := 0.0000000001

  /** The inverse of h, or the identity when h is singular. */
  function InvertHomography(h: Mat3): (inv: Mat3)
    ensures Abs(Det(h)) < SingularBelow ==> inv == Identity3
  {
    var d := Det(h);
    if Abs(d) < SingularBelow then Identity3
    else
      var a := Adjugate(h);
      Mat3(a.m0 / d, a.m1 / d, a.m2 / d, a.m3 / d, a.m4 / d, a.m5 / d, a.m6 / d, a.m7 / d, a.m8 / d)
  }

  /** x . y for two 3-vectors. */
  function Dot3(x0: real, x1: real, x2: real, y0: real, y1: real, y2: real): real {
    x0 * y0 + x1 * y1 + x2 * y2
  }

  /** The matrix product: entry (i, j) is row i of `a` times column j of `b`. */
  function Mul3(a: Mat3, b: Mat3): Mat3 {
    Mat3(Dot3(a.m0, a.m1, a.m2, b.m0, b.m3, b.m6), Dot3(a.m0, a.m1, a.m2, b.m1, b.m4, b.m7), Dot3(a.m0, a.m1, a.m2, b.m2, b.m5, b.m8),
         Dot3(a.m3, a.m4, a.m5, b.m0, b.m3, b.m6), Dot3(a.m3, a.m4, a.m5, b.m1, b.m4, b.m7), Dot3(a.m3, a.m4, a.m5, b.m2, b.m5, b.m8),
         Dot3(a.m6, a.m7, a.m8, b.m0, b.m3, b.m6), Dot3(a.m6, a.m7, a.m8, b.m1, b.m4, b.m7), Dot3(a.m6, a.m7, a.m8, b.m2, b.m5, b.m8))
  }

  /** h times its adjugate, and its adjugate times h, are det(h) times the
      identity. */
  lemma AdjugateProduct(h: Mat3)
    ensures var d := Det(h);
            Mul3(h, Adjugate(h)) == Mat3(d, 0.0, 0.0, 0.0, d, 0.0, 0.0, 0.0, d) &&
            Mul3(Adjugate(h), h) == Mat3(d, 0.0, 0.0, 0.0, d, 0.0, 0.0, 0.0, d)
  {
    AdjugateEntries(h.m0, h.m1, h.m2, h.m3, h.m4, h.m5, h.m6, h.m7, h.m8);
  }

  /** The same on a matrix spelt out entry by entry. */
  lemma AdjugateEntries(h0: real, h1: real, h2: real, h3: real, h4: real, h5: real, h6: real, h7: real, h8: real)
    ensures var h := Mat3(h0, h1, h2, h3, h4, h5, h6, h7, h8); var d := Det(h);
            Mul3(h, Adjugate(h)) == Mat3(d, 0.0, 0.0, 0.0, d, 0.0, 0.0, 0.0, d) &&
            Mul3(Adjugate(h), h) == Mat3(d, 0.0, 0.0, 0.0, d, 0.0, 0.0, 0.0, d)
  {
    var h := Mat3(h0, h1, h2, h3, h4, h5, h6, h7, h8);
    assert Adjugate(h) == Mat3(h4 * h8 - h5 * h7, h2 * h7 - h1 * h8, h1 * h5 - h2 * h4,
                               h5 * h6 - h3 * h8, h0 * h8 - h2 * h6, h2 * h3 - h0 * h5,
                               h3 * h7 - h4 * h6, h1 * h6 - h0 * h7, h0 * h4 - h1 * h3);
    assert Det(h) == h0 * (h4 * h8 - h5 * h7) - h1 * (h3 * h8 - h5 * h6) + h2 * (h3 * h7 - h4 * h6);
    FirstRowCofactors(h0, h1, h2, h3, h4, h5, h6, h7, h8);
    SecondRowCofactors(h0, h1, h2, h3, h4, h5, h6, h7, h8);
    ThirdRowCofactors(h0, h1, h2, h3, h4, h5, h6, h7, h8);
    FirstColumnCofactors(h0, h1, h2, h3, h4, h5, h6, h7, h8);
    SecondColumnCofactors(h0, h1, h2, h3, h4, h5, h6, h7, h8);
    ThirdColumnCofactors(h0, h1, h2, h3, h4, h5, h6, h7, h8);
  }

  /** The cofactor identities, one row of h at a time: row i of h times
      column j of the adjugate is the determinant when i == j and 0
      otherwise (a scalar triple product with a repeated row). */
  lemma FirstRowCofactors(h0: real, h1: real, h2: real, h3: real, h4: real, h5: real, h6: real, h7: real, h8: real)
    ensures Dot3(h0, h1, h2, h4 * h8 - h5 * h7, h5 * h6 - h3 * h8, h3 * h7 - h4 * h6) ==
            h0 * (h4 * h8 - h5 * h7) - h1 * (h3 * h8 - h5 * h6) + h2 * (h3 * h7 - h4 * h6)
    ensures Dot3(h0, h1, h2, h2 * h7 - h1 * h8, h0 * h8 - h2 * h6, h1 * h6 - h0 * h7) == 0.0
    ensures Dot3(h0, h1, h2, h1 * h5 - h2 * h4, h2 * h3 - h0 * h5, h0 * h4 - h1 * h3) == 0.0
  {
  }

  lemma SecondRowCofactors(h0: real, h1: real, h2: real, h3: real, h4: real, h5: real, h6: real, h7: real, h8: real)
    ensures Dot3(h3, h4, h5, h4 * h8 - h5 * h7, h5 * h6 - h3 * h8, h3 * h7 - h4 * h6) == 0.0
    ensures Dot3(h3, h4, h5, h2 * h7 - h1 * h8, h0 * h8 - h2 * h6, h1 * h6 - h0 * h7) ==
            h0 * (h4 * h8 - h5 * h7) - h1 * (h3 * h8 - h5 * h6) + h2 * (h3 * h7 - h4 * h6)
    ensures Dot3(h3, h4, h5, h1 * h5 - h2 * h4, h2 * h3 - h0 * h5, h0 * h4 - h1 * h3) == 0.0
  {
  }

  lemma ThirdRowCofactors(h0: real, h1: real, h2: real, h3: real, h4: real, h5: real, h6: real, h7: real, h8: real)
    ensures Dot3(h6, h7, h8, h4 * h8 - h5 * h7, h5 * h6 - h3 * h8, h3 * h7 - h4 * h6) == 0.0
    ensures Dot3(h6, h7, h8, h2 * h7 - h1 * h8, h0 * h8 - h2 * h6, h1 * h6 - h0 * h7) == 0.0
    ensures Dot3(h6, h7, h8, h1 * h5 - h2 * h4, h2 * h3 - h0 * h5, h0 * h4 - h1 * h3) ==
            h0 * (h4 * h8 - h5 * h7) - h1 * (h3 * h8 - h5 * h6) + h2 * (h3 * h7 - h4 * h6)
  {
  }

  /** The same with the adjugate on the left: row i of the adjugate times
      column j of h. */
  lemma FirstColumnCofactors(h0: real, h1: real, h2: real, h3: real, h4: real, h5: real, h6: real, h7: real, h8: real)
    ensures Dot3(h4 * h8 - h5 * h7, h2 * h7 - h1 * h8, h1 * h5 - h2 * h4, h0, h3, h6) ==
            h0 * (h4 * h8 - h5 * h7) - h1 * (h3 * h8 - h5 * h6) + h2 * (h3 * h7 - h4 * h6)
    ensures Dot3(h4 * h8 - h5 * h7, h2 * h7 - h1 * h8, h1 * h5 - h2 * h4, h1, h4, h7) == 0.0
    ensures Dot3(h4 * h8 - h5 * h7, h2 * h7 - h1 * h8, h1 * h5 - h2 * h4, h2, h5, h8) == 0.0
  {
  }

  lemma SecondColumnCofactors(h0: real, h1: real, h2: real, h3: real, h4: real, h5: real, h6: real, h7: real, h8: real)
    ensures Dot3(h5 * h6 - h3 * h8, h0 * h8 - h2 * h6, h2 * h3 - h0 * h5, h0, h3, h6) == 0.0
    ensures Dot3(h5 * h6 - h3 * h8, h0 * h8 - h2 * h6, h2 * h3 - h0 * h5, h1, h4, h7) ==
            h0 * (h4 * h8 - h5 * h7) - h1 * (h3 * h8 - h5 * h6) + h2 * (h3 * h7 - h4 * h6)
    ensures Dot3(h5 * h6 - h3 * h8, h0 * h8 - h2 * h6, h2 * h3 - h0 * h5, h2, h5, h8) == 0.0
  {
  }

  lemma ThirdColumnCofactors(h0: real, h1: real, h2: real, h3: real, h4: real, h5: real, h6: real, h7: real, h8: real)
    ensures Dot3(h3 * h7 - h4 * h6, h1 * h6 - h0 * h7, h0 * h4 - h1 * h3, h0, h3, h6) == 0.0
    ensures Dot3(h3 * h7 - h4 * h6, h1 * h6 - h0 * h7, h0 * h4 - h1 * h3, h1, h4, h7) == 0.0
    ensures Dot3(h3 * h7 - h4 * h6, h1 * h6 - h0 * h7, h0 * h4 - h1 * h3, h2, h5, h8) ==
            h0 * (h4 * h8 - h5 * h7) - h1 * (h3 * h8 - h5 * h6) + h2 * (h3 * h7 - h4 * h6)
  {
  }

  /** When h is not singular, h times its inverse is the identity. */
  lemma InverseIsRightInverse(h: Mat3)
    requires Abs(Det(h)) >= SingularBelow
    ensures Mul3(h, InvertHomography(h)) == Identity3
  {
    var a, d := Adjugate(h), Det(h);
    AdjugateProduct(h);
    DividedDot(h.m0, h.m1, h.m2, a.m0, a.m3, a.m6, d);
    DividedDot(h.m0, h.m1, h.m2, a.m1, a.m4, a.m7, d);
    DividedDot(h.m0, h.m1, h.m2, a.m2, a.m5, a.m8, d);
    DividedDot(h.m3, h.m4, h.m5, a.m0, a.m3, a.m6, d);
    DividedDot(h.m3, h.m4, h.m5, a.m1, a.m4, a.m7, d);
    DividedDot(h.m3, h.m4, h.m5, a.m2, a.m5, a.m8, d);
    DividedDot(h.m6, h.m7, h.m8, a.m0, a.m3, a.m6, d);
    DividedDot(h.m6, h.m7, h.m8, a.m1, a.m4, a.m7, d);
    DividedDot(h.m6, h.m7, h.m8, a.m2, a.m5, a.m8, d);
    assert d / d == 1.0 && 0.0 / d == 0.0;
  }

  /** When h is not singular, its inverse times h is the identity. */
  lemma InverseIsLeftInverse(h: Mat3)
    requires Abs(Det(h)) >= SingularBelow
    ensures Mul3(InvertHomography(h), h) == Identity3
  {
    var a, d := Adjugate(h), Det(h);
    AdjugateProduct(h);
    DividedRow(a.m0, a.m1, a.m2, h.m0, h.m3, h.m6, d);
    DividedRow(a.m0, a.m1, a.m2, h.m1, h.m4, h.m7, d);
    DividedRow(a.m0, a.m1, a.m2, h.m2, h.m5, h.m8, d);
    DividedRow(a.m3, a.m4, a.m5, h.m0, h.m3, h.m6, d);
    DividedRow(a.m3, a.m4, a.m5, h.m1, h.m4, h.m7, d);
    DividedRow(a.m3, a.m4, a.m5, h.m2, h.m5, h.m8, d);
    DividedRow(a.m6, a.m7, a.m8, h.m0, h.m3, h.m6, d);
    DividedRow(a.m6, a.m7, a.m8, h.m1, h.m4, h.m7, d);
    DividedRow(a.m6, a.m7, a.m8, h.m2, h.m5, h.m8, d);
    assert d / d == 1.0 && 0.0 / d == 0.0;
  }

  /** Dividing the second vector by d divides the dot product by d. */
  lemma DividedDot(x0: real, x1: real, x2: real, y0: real, y1: real, y2: real, d: real)
    requires d != 0.0
    ensures Dot3(x0, x1, x2, y0 / d, y1 / d, y2 / d) == Dot3(x0, x1, x2, y0, y1, y2) / d
  {
    assert x0 * (y0 / d) + x1 * (y1 / d) + x2 * (y2 / d) == (x0 * y0 + x1 * y1 + x2 * y2) / d;
  }

  /** Dividing the first vector by d divides the dot product by d. */
  lemma DividedRow(x0: real, x1: real, x2: real, y0: real, y1: real, y2: real, d: real)
    requires d != 0.0
    ensures Dot3(x0 / d, x1 / d, x2 / d, y0, y1, y2) == Dot3(x0, x1, x2, y0, y1, y2) / d
  {
    assert (x0 / d) * y0 + (x1 / d) * y1 + (x2 / d) * y2 == (x0 * y0 + x1 * y1 + x2 * y2) / d;
  }

  // ----------------------------------------------------- bilinearInterpolate

  /** The point at (u, v) of the quad with corners TL, TR, BR, BL; corners
      past the fourth are ignored. With fewer than four corners reading the
      missing one throws, which is `None` here. */
  function BilinearInterpolate(corners: seq<Vec2>, u: real, v: real): (p: Option<Vec2>)
    ensures p.None? <==> |corners| < 4
  {
    if |corners| < 4 then None
    else
      var p00, p10, p11, p01 := corners[0], corners[1], corners[2], corners[3];
      Some(Vec2((1.0 - u) * (1.0 - v) * p00.x + u * (1.0 - v) * p10.x + u * v * p11.x + (1.0 - u) * v * p01.x,
                (1.0 - u) * (1.0 - v) * p00.y + u * (1.0 - v) * p10.y + u * v * p11.y + (1.0 - u) * v * p01.y))
  }

  /** The unit square's corners land on the quad's corners, in stored order. */
  lemma BilinearCorners(corners: seq<Vec2>)
    requires |corners| >= 4
    ensures BilinearInterpolate(corners, 0.0, 0.0) == Some(corners[0])
    ensures BilinearInterpolate(corners, 1.0, 0.0) == Some(corners[1])
    ensures BilinearInterpolate(corners, 1.0, 1.0) == Some(corners[2])
    ensures BilinearInterpolate(corners, 0.0, 1.0) == Some(corners[3])
  {
  }

  function Min4(a: real, b: real, c: real, d: real): real {
    var m := if a < b then a else b;
    var n := if c < d then c else d;
    if m < n then m else n
  }

  function Max4(a: real, b: real, c: real, d: real): real {
    var m := if a < b then b else a;
    var n := if c < d then d else c;
    if m < n then n else m
  }

  /** A weighted sum with non-negative weights adding up to 1 lies between
      the smallest and the largest value. */
  lemma ConvexCombination(w0: real, w1: real, w2: real, w3: real, a: real, b: real, c: real, d: real)
    requires w0 >= 0.0 && w1 >= 0.0 && w2 >= 0.0 && w3 >= 0.0 && w0 + w1 + w2 + w3 == 1.0
    ensures Min4(a, b, c, d) <= w0 * a + w1 * b + w2 * c + w3 * d <= Max4(a, b, c, d)
  {
    WeightedBetween(w0, w1, w2, w3, a, b, c, d, Min4(a, b, c, d), Max4(a, b, c, d));
  }

  lemma WeightedBetween(w0: real, w1: real, w2: real, w3: real, a: real, b: real, c: real, d: real, lo: real, hi: real)
    requires w0 >= 0.0 && w1 >= 0.0 && w2 >= 0.0 && w3 >= 0.0 && w0 + w1 + w2 + w3 == 1.0
    requires lo <= a <= hi && lo <= b <= hi && lo <= c <= hi && lo <= d <= hi
    ensures lo <= w0 * a + w1 * b + w2 * c + w3 * d <= hi
  {
    ScaleMonotone(w0, lo, a); ScaleMonotone(w1, lo, b); ScaleMonotone(w2, lo, c); ScaleMonotone(w3, lo, d);
    ScaleMonotone(w0, a, hi); ScaleMonotone(w1, b, hi); ScaleMonotone(w2, c, hi); ScaleMonotone(w3, d, hi);
    SumMonotone(w0 * lo, w1 * lo, w2 * lo, w3 * lo, w0 * a, w1 * b, w2 * c, w3 * d);
    SumMonotone(w0 * a, w1 * b, w2 * c, w3 * d, w0 * hi, w1 * hi, w2 * hi, w3 * hi);
    SumTimes4(w0, w1, w2, w3, lo);
    SumTimes4(w0, w1, w2, w3, hi);
  }

  lemma SumMonotone(x0: real, x1: real, x2: real, x3: real, y0: real, y1: real, y2: real, y3: real)
    requires x0 <= y0 && x1 <= y1 && x2 <= y2 && x3 <= y3
    ensures x0 + x1 + x2 + x3 <= y0 + y1 + y2 + y3
  {
  }

  lemma SumTimes4(w0: real, w1: real, w2: real, w3: real, x: real)
    requires w0 + w1 + w2 + w3 == 1.0
    ensures w0 * x + w1 * x + w2 * x + w3 * x == x
  {
    assert w0 * x + w1 * x + w2 * x + w3 * x == (w0 + w1 + w2 + w3) * x;
  }

  lemma ScaleMonotone(w: real, x: real, y: real)
    requires w >= 0.0 && x <= y
    ensures w * x <= w * y
  {
  }

  lemma ProductNonNegative(x: real, y: real)
    requires x >= 0.0 && y >= 0.0
    ensures x * y >= 0.0
  {
  }

  /** The bilinear weights inside the unit square are non-negative and add up to 1. */
  lemma BilinearWeights(u: real, v: real)
    requires 0.0 <= u <= 1.0 && 0.0 <= v <= 1.0
    ensures (1.0 - u) * (1.0 - v) >= 0.0 && u * (1.0 - v) >= 0.0 && u * v >= 0.0 && (1.0 - u) * v >= 0.0
    ensures (1.0 - u) * (1.0 - v) + u * (1.0 - v) + u * v + (1.0 - u) * v == 1.0
  {
    ProductNonNegative(1.0 - u, 1.0 - v);
    ProductNonNegative(u, 1.0 - v);
    ProductNonNegative(u, v);
    ProductNonNegative(1.0 - u, v);
  }

  /** Inside the unit square the interpolated point stays within the
      bounding box of the corners. */
  lemma BilinearWithinBounds(corners: seq<Vec2>, u: real, v: real)
    requires |corners| >= 4
    requires 0.0 <= u <= 1.0 && 0.0 <= v <= 1.0
    ensures var p := BilinearInterpolate(corners, u, v).value;
            Min4(corners[0].x, corners[1].x, corners[2].x, corners[3].x) <= p.x <=
              Max4(corners[0].x, corners[1].x, corners[2].x, corners[3].x) &&
            Min4(corners[0].y, corners[1].y, corners[2].y, corners[3].y) <= p.y <=
              Max4(corners[0].y, corners[1].y, corners[2].y, corners[3].y)
  {
    var p := BilinearInterpolate(corners, u, v).value;
    BilinearCoordinate(u, v, corners[0].x, corners[1].x, corners[2].x, corners[3].x, p.x);
    BilinearCoordinate(u, v, corners[0].y, corners[1].y, corners[2].y, corners[3].y, p.y);
  }

  /** One coordinate of the bilinear blend lies between the corners' extremes. */
  lemma BilinearCoordinate(u: real, v: real, a: real, b: real, c: real, d: real, x: real)
    requires 0.0 <= u <= 1.0 && 0.0 <= v <= 1.0
    requires x == (1.0 - u) * (1.0 - v) * a + u * (1.0 - v) * b + u * v * c + (1.0 - u) * v * d
    ensures Min4(a, b, c, d) <= x <= Max4(a, b, c, d)
  {
    BilinearWeights(u, v);
    ConvexCombination((1.0 - u) * (1.0 - v), u * (1.0 - v), u * v, (1.0 - u) * v, a, b, c, d);
  }
}
