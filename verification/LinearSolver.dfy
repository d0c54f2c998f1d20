/** The small dense solver behind the free-value pass of the curve fitter: Gaussian
    elimination with partial pivoting on an augmented matrix, then back
    substitution.  Values are exact reals. */
module LinearSolver {

  import opened MotionTypes

  /** Pivots closer to zero than this are refused. */
  const MIN_PIVOT: real := 0.000000000001

  function Abs(x: real): real { if x < 0.0 then -x else x }

  /** Sum of `r[i] * x[i]` over the indices from `k` on. */
  function DotFrom(r: seq<real>, x: seq<real>, k: nat): real
    requires k <= |x| <= |r|
    decreases |x| - k
  {
    if k == |x| then 0.0 else r[k] * x[k] + DotFrom(r, x, k + 1)
  }

  /** `matrix * x == vector`. */
  ghost predicate IsSolution(matrix: seq<seq<real>>, vector: seq<real>, x: seq<real>)
    requires Square(matrix, vector)
  {
    |x| == |vector| && forall i :: 0 <= i < |vector| ==> DotFrom(matrix[i], x, 0) == vector[i]
  }

  ghost predicate Square(matrix: seq<seq<real>>, vector: seq<real>) {
    |matrix| == |vector| && forall i :: 0 <= i < |matrix| ==> |matrix[i]| == |vector|
  }

  // ----- Augmented rows -------------------------------------------------------

  ghost predicate Augmented(rows: seq<seq<real>>) {
    forall i :: 0 <= i < |rows| ==> |rows[i]| == |rows| + 1
  }

  ghost predicate Solves(rows: seq<seq<real>>, x: seq<real>)
    requires Augmented(rows)
  {
    |x| == |rows| && forall i :: 0 <= i < |rows| ==> DotFrom(rows[i], x, 0) == rows[i][|rows|]
  }

  ghost predicate SameSolutions(a: seq<seq<real>>, b: seq<seq<real>>) {
    && Augmented(a) && Augmented(b) && |a| == |b|
    && forall x :: Solves(a, x) <==> Solves(b, x)
  }

  /** `r` is the row `a` with `factor` times the row `b` taken away. */
  ghost predicate RowMinus(r: seq<real>, a: seq<real>, factor: real, b: seq<real>) {
    |r| == |a| == |b| && forall k :: 0 <= k < |r| ==> r[k] == a[k] - factor * b[k]
  }

  lemma {:induction false} DotOfRowMinus(
    r: seq<real>, a: seq<real>, factor: real, b: seq<real>, x: seq<real>, k: nat)
    requires RowMinus(r, a, factor, b) && k <= |x| <= |r|
    ensures DotFrom(r, x, k) == DotFrom(a, x, k) - factor * DotFrom(b, x, k)
    decreases |x| - k
  {
    if k < |x| {
      DotOfRowMinus(r, a, factor, b, x, k + 1);
      assert r[k] * x[k] == a[k] * x[k] - factor * (b[k] * x[k]);
    }
  }

  lemma SwapKeepsSolutions(rows: seq<seq<real>>, i: nat, j: nat)
    requires Augmented(rows) && i < |rows| && j < |rows|
    ensures SameSolutions(rows[i := rows[j]][j := rows[i]], rows)
  {
    var swapped := rows[i := rows[j]][j := rows[i]];
    forall x ensures Solves(swapped, x) <==> Solves(rows, x) {
      if Solves(swapped, x) {
        forall k | 0 <= k < |rows| ensures DotFrom(rows[k], x, 0) == rows[k][|rows|] {
          assert rows[k] == swapped[if k == i then j else if k == j then i else k];
        }
      }
    }
  }

  lemma RowMinusKeepsSolutions(rows: seq<seq<real>>, i: nat, j: nat, factor: real, r: seq<real>)
    requires Augmented(rows) && i < |rows| && j < |rows| && i != j
    requires RowMinus(r, rows[i], factor, rows[j])
    ensures SameSolutions(rows[i := r], rows)
  {
    var changed := rows[i := r];
    forall x ensures Solves(changed, x) <==> Solves(rows, x) {
      if |x| == |rows| {
        DotOfRowMinus(r, rows[i], factor, rows[j], x, 0);
        assert changed[j] == rows[j] && changed[i] == r;
        if Solves(changed, x) {
          assert DotFrom(changed[i], x, 0) == changed[i][|rows|];
          assert DotFrom(changed[j], x, 0) == changed[j][|rows|];
          forall k | 0 <= k < |rows| ensures DotFrom(rows[k], x, 0) == rows[k][|rows|] {
            if k != i { assert rows[k] == changed[k]; }
          }
        }
      }
    }
  }

  /** Everything below the diagonal of the first `columns` columns is zero. */
  ghost predicate Eliminated(rows: seq<seq<real>>, columns: nat)
    requires Augmented(rows)
  {
    forall i, j :: 0 <= j < columns && j < i < |rows| ==> rows[i][j] == 0.0
  }

  ghost predicate GoodPivots(rows: seq<seq<real>>, columns: nat)
    requires Augmented(rows)
  {
    forall j :: 0 <= j < columns && j < |rows| ==> rows[j][j] != 0.0
  }

  lemma {:induction false} DotSkipsZeros(r: seq<real>, x: seq<real>, k: nat)
    requires k <= |x| <= |r| && forall i :: 0 <= i < k ==> r[i] == 0.0
    ensures DotFrom(r, x, 0) == DotFrom(r, x, k)
  {
    if k > 0 {
      DotSkipsZeros(r, x, k - 1);
    }
  }

  lemma {:induction false} DotDependsOnTail(r: seq<real>, x: seq<real>, y: seq<real>, k: nat)
    requires k <= |x| == |y| <= |r| && forall i :: k <= i < |x| ==> x[i] == y[i]
    ensures DotFrom(r, x, k) == DotFrom(r, y, k)
    decreases |x| - k
  {
    if k < |x| {
      DotDependsOnTail(r, x, y, k + 1);
    }
  }

  /** The rows from `k` on have `answer` as their solution, and any solution agrees
      with it from `k` on. */
  ghost predicate SolvedFrom(rows: seq<seq<real>>, answer: seq<real>, k: nat)
    requires Augmented(rows) && |answer| == |rows|
  {
    && (forall i :: k <= i < |rows| ==> DotFrom(rows[i], answer, i) == rows[i][|rows|])
    && (forall y, i :: Solves(rows, y) && k <= i < |rows| ==> y[i] == answer[i])
  }

  /** The value that back substitution gives to the unknown of row `row`. */
  function BackValue(r: seq<real>, answer: seq<real>, row: nat): real
    requires row < |answer| && |r| == |answer| + 1 && r[row] != 0.0
  {
    (r[|answer|] - DotFrom(r, answer, row + 1)) / r[row]
  }

  lemma Quotient(head: real, total: real, y: real)
    requires head != 0.0
    ensures head * (total / head) == total
    ensures head * y == total ==> y == total / head
  {
  }

  /** It solves its row, and any solution of the row that agrees further down has it. */
  lemma BackValueSolvesRow(r: seq<real>, answer: seq<real>, row: nat, next: seq<real>)
    requires row < |answer| == |next| && |r| == |answer| + 1 && r[row] != 0.0
    requires forall i :: row < i < |answer| ==> next[i] == answer[i]
    ensures DotFrom(r, next, row) == r[|answer|] <==> next[row] == BackValue(r, answer, row)
  {
    DotDependsOnTail(r, next, answer, row + 1);
    Quotient(r[row], r[|answer|] - DotFrom(r, answer, row + 1), next[row]);
  }

  /** One step of back substitution. */
  lemma BackStep(rows: seq<seq<real>>, answer: seq<real>, row: nat, next: seq<real>)
    requires Augmented(rows) && |answer| == |rows| && row < |rows|
    requires Eliminated(rows, |rows|) && rows[row][row] != 0.0
    requires SolvedFrom(rows, answer, row + 1)
    requires next == answer[row := BackValue(rows[row], answer, row)]
    ensures SolvedFrom(rows, next, row)
  {
    BackValueSolvesRow(rows[row], answer, row, next);
    forall i | row < i < |rows| ensures DotFrom(rows[i], next, i) == rows[i][|rows|] {
      DotDependsOnTail(rows[i], next, answer, i);
    }
    forall y, i | Solves(rows, y) && row <= i < |rows| ensures y[i] == next[i] {
      if i == row {
        DotSkipsZeros(rows[row], y, row);
        BackValueSolvesRow(rows[row], answer, row, y);
      }
    }
  }

  // ----- Why an answer may fail to come -----------------------------------------

  /** All products of the rows with `y` are closer to zero than `bound`. */
  ghost predicate Small(rows: seq<seq<real>>, y: seq<real>, bound: real)
    requires forall i :: 0 <= i < |rows| ==> |y| <= |rows[i]|
  {
    forall i :: 0 <= i < |rows| ==> Abs(DotFrom(rows[i], y, 0)) < bound
  }

  /** `y` is orthogonal to the first `columns` rows. */
  ghost predicate Kills(rows: seq<seq<real>>, columns: nat, y: seq<real>) {
    && Augmented(rows) && |y| == |rows|
    && forall j :: 0 <= j < columns && j < |rows| ==> DotFrom(rows[j], y, 0) == 0.0
  }

  /** A vector that the rows done so far take to zero is as short for the rows that are
      left as it was for all the rows at the start. */
  ghost predicate StillSmall(rows: seq<seq<real>>, start: seq<seq<real>>, columns: nat) {
    && Augmented(rows) && Augmented(start) && |start| == |rows|
    && forall y, bound :: Kills(rows, columns, y) && Small(rows, y, bound) ==> Small(start, y, bound)
  }

  /** A step that changes no product with a vector that the pivot row takes to zero. */
  ghost predicate KeepsProducts(next: seq<seq<real>>, rows: seq<seq<real>>, column: nat) {
    && Augmented(next) && Augmented(rows) && |next| == |rows| && column < |rows|
    && forall y, i :: |y| == |rows| && 0 <= i < |rows| && DotFrom(rows[column], y, 0) == 0.0 ==>
         DotFrom(next[i], y, 0) == DotFrom(rows[i], y, 0)
  }

  lemma SwapStaysSmall(rows: seq<seq<real>>, start: seq<seq<real>>, column: nat, pivot: nat)
    requires StillSmall(rows, start, column) && column <= pivot < |rows|
    ensures StillSmall(rows[column := rows[pivot]][pivot := rows[column]], start, column)
  {
    var swapped := rows[column := rows[pivot]][pivot := rows[column]];
    forall y, bound | Kills(swapped, column, y) && Small(swapped, y, bound) ensures Small(start, y, bound) {
      forall j | 0 <= j < column ensures DotFrom(rows[j], y, 0) == 0.0 { assert swapped[j] == rows[j]; }
      forall i | 0 <= i < |rows| ensures Abs(DotFrom(rows[i], y, 0)) < bound {
        assert rows[i] == swapped[if i == column then pivot else if i == pivot then column else i];
      }
      assert Kills(rows, column, y) && Small(rows, y, bound);
    }
  }

  lemma StepStaysSmall(next: seq<seq<real>>, rows: seq<seq<real>>, start: seq<seq<real>>, column: nat)
    requires StillSmall(rows, start, column) && KeepsProducts(next, rows, column)
    requires forall i :: 0 <= i <= column ==> next[i] == rows[i]
    ensures StillSmall(next, start, column + 1)
  {
    forall y, bound | Kills(next, column + 1, y) && Small(next, y, bound) ensures Small(start, y, bound) {
      assert DotFrom(next[column], y, 0) == 0.0;
      forall j | 0 <= j < column ensures DotFrom(rows[j], y, 0) == 0.0 { assert next[j] == rows[j]; }
      assert Kills(rows, column, y) && Small(rows, y, bound);
    }
  }

  lemma {:induction false} DotOfZeros(r: seq<real>, y: seq<real>, k: nat)
    requires k <= |y| <= |r| && forall i :: k <= i < |y| ==> y[i] == 0.0
    ensures DotFrom(r, y, k) == 0.0
    decreases |y| - k
  {
    if k < |y| { DotOfZeros(r, y, k + 1); }
  }

  lemma RowMinusKeepsProducts(
    changed: seq<seq<real>>, next: seq<seq<real>>, rows: seq<seq<real>>, column: nat, row: nat, factor: real)
    requires KeepsProducts(next, rows, column) && column < row < |rows| && next[column] == rows[column]
    requires Augmented(changed) && |changed| == |rows| && changed == next[row := changed[row]]
    requires RowMinus(changed[row], next[row], factor, next[column])
    ensures KeepsProducts(changed, rows, column)
  {
    forall y, i | |y| == |rows| && 0 <= i < |rows| && DotFrom(rows[column], y, 0) == 0.0
      ensures DotFrom(changed[i], y, 0) == DotFrom(rows[i], y, 0)
    {
      if i == row { DotOfRowMinus(changed[row], next[row], factor, next[column], y, 0); }
    }
  }

  /** From `k` on, the rows above the column take `y` to zero. */
  ghost predicate NullFrom(rows: seq<seq<real>>, column: nat, y: seq<real>, k: nat)
    requires Augmented(rows) && column < |rows|
  {
    && |y| == |rows| && y[column] == 1.0
    && (forall i :: column < i < |rows| ==> y[i] == 0.0)
    && (forall j :: k <= j < column ==> DotFrom(rows[j], y, j) == 0.0)
  }

  lemma NullStep(rows: seq<seq<real>>, column: nat, y: seq<real>, k: nat) returns (next: seq<real>)
    requires Augmented(rows) && column < |rows| && k < column && rows[k][k] != 0.0
    requires NullFrom(rows, column, y, k + 1)
    ensures NullFrom(rows, column, next, k)
  {
    next := y[k := (0.0 - DotFrom(rows[k], y, k + 1)) / rows[k][k]];
    Quotient(rows[k][k], 0.0 - DotFrom(rows[k], y, k + 1), 0.0);
    DotDependsOnTail(rows[k], next, y, k + 1);
    forall j | k < j < column ensures DotFrom(rows[j], next, j) == 0.0 {
      DotDependsOnTail(rows[j], next, y, j);
    }
  }

  lemma {:induction false} NullVector(rows: seq<seq<real>>, column: nat, k: nat) returns (y: seq<real>)
    requires Augmented(rows) && k <= column < |rows| && GoodPivots(rows, column)
    ensures NullFrom(rows, column, y, k)
    decreases column - k
  {
    if k == column {
      y := seq(|rows|, i => if i == column then 1.0 else 0.0);
    } else {
      y := NullVector(rows, column, k + 1);
      y := NullStep(rows, column, y, k);
    }
  }

  /** Where no pivot is large enough, some vector with an entry 1 is as good as taken to
      zero by what is left. */
  lemma SmallPivot(rows: seq<seq<real>>, column: nat) returns (y: seq<real>)
    requires Augmented(rows) && column < |rows| && Eliminated(rows, column) && GoodPivots(rows, column)
    requires forall i :: column <= i < |rows| ==> Abs(rows[i][column]) < MIN_PIVOT
    ensures Kills(rows, column, y) && Small(rows, y, MIN_PIVOT) && y[column] == 1.0
  {
    y := NullVector(rows, column, 0);
    forall i | 0 <= i < |rows|
      ensures DotFrom(rows[i], y, 0) == if i < column then 0.0 else rows[i][column]
    {
      if i < column {
        DotSkipsZeros(rows[i], y, i);
      } else {
        DotSkipsZeros(rows[i], y, column);
        DotOfZeros(rows[i], y, column + 1);
      }
    }
  }

  /** The matrix takes some vector with an entry 1 closer to zero than the least pivot. */
  ghost predicate NearlySingular(matrix: seq<seq<real>>, vector: seq<real>)
    requires Square(matrix, vector)
  {
    exists y, k :: |y| == |vector| && 0 <= k < |y| && y[k] == 1.0 && Small(matrix, y, MIN_PIVOT)
  }

  lemma SmallInTheMatrix(matrix: seq<seq<real>>, vector: seq<real>, rows: seq<seq<real>>, y: seq<real>, k: nat)
    requires Square(matrix, vector) && Augmented(rows) && |rows| == |vector| == |y|
    requires forall i :: 0 <= i < |rows| ==> rows[i] == matrix[i] + [vector[i]]
    requires k < |y| && y[k] == 1.0 && Small(rows, y, MIN_PIVOT)
    ensures NearlySingular(matrix, vector)
  {
    forall i | 0 <= i < |matrix| ensures Abs(DotFrom(matrix[i], y, 0)) < MIN_PIVOT {
      DotOfPrefix(matrix[i], vector[i], y, 0);
      assert Abs(DotFrom(rows[i], y, 0)) < MIN_PIVOT;
    }
    assert Small(matrix, y, MIN_PIVOT);
  }

  // ----- The solver ---------------------------------------------------------------

  method AugmentRows(matrix: seq<seq<real>>, vector: seq<real>) returns (rows: seq<seq<real>>)
    requires Square(matrix, vector)
    ensures |rows| == |vector| && forall i :: 0 <= i < |rows| ==> rows[i] == matrix[i] + [vector[i]]
  {
    rows := [];
    for index := 0 to |vector|
      invariant |rows| == index && forall i :: 0 <= i < index ==> rows[i] == matrix[i] + [vector[i]]
    {
      rows := rows + [matrix[index] + [vector[index]]];
    }
  }

  lemma AugmentedMeansTheSame(matrix: seq<seq<real>>, vector: seq<real>, rows: seq<seq<real>>, x: seq<real>)
    requires Square(matrix, vector) && Augmented(rows) && |rows| == |vector|
    requires forall i :: 0 <= i < |rows| ==> rows[i] == matrix[i] + [vector[i]]
    ensures Solves(rows, x) <==> IsSolution(matrix, vector, x)
  {
    if |x| == |vector| {
      forall i | 0 <= i < |rows| ensures DotFrom(rows[i], x, 0) == DotFrom(matrix[i], x, 0) {
        DotOfPrefix(matrix[i], vector[i], x, 0);
      }
    }
  }

  lemma {:induction false} DotOfPrefix(r: seq<real>, last: real, x: seq<real>, k: nat)
    requires k <= |x| == |r|
    ensures DotFrom(r + [last], x, k) == DotFrom(r, x, k)
    decreases |x| - k
  {
    if k < |x| { DotOfPrefix(r, last, x, k + 1); }
  }

  /** The row with the largest entry in this column, from the diagonal down. */
  method PivotRow(rows: seq<seq<real>>, column: nat) returns (pivot: nat)
    requires Augmented(rows) && column < |rows|
    ensures column <= pivot < |rows|
    ensures forall i :: column <= i < |rows| ==> Abs(rows[i][column]) <= Abs(rows[pivot][column])
  {
    pivot := column;
    for row := column + 1 to |rows|
      invariant column <= pivot < |rows|
      invariant forall i :: column <= i < row ==> Abs(rows[i][column]) <= Abs(rows[pivot][column])
    {
      if Abs(rows[row][column]) > Abs(rows[pivot][column]) {
        pivot := row;
      }
    }
  }

  /** The inner loop: `rows[row][cell] -= factor * rows[column][cell]` from the
      pivot column to the right-hand side. */
  method SubtractRow(rows: seq<seq<real>>, row: nat, column: nat, factor: real)
    returns (next: seq<seq<real>>)
    requires Augmented(rows) && column < row < |rows|
    requires forall j :: 0 <= j < column ==> rows[column][j] == 0.0
    ensures |next| == |rows| && next == rows[row := next[row]]
    ensures RowMinus(next[row], rows[row], factor, rows[column])
  {
    next := rows;
    for cell := column to |rows| + 1
      invariant |next| == |rows| && next == rows[row := next[row]] && |next[row]| == |rows| + 1
      invariant forall k :: 0 <= k < cell ==> next[row][k] == rows[row][k] - factor * rows[column][k]
      invariant forall k :: cell <= k <= |rows| ==> next[row][k] == rows[row][k]
    {
      next := next[row := next[row][cell := next[row][cell] - factor * next[column][cell]]];
    }
  }

  /** Clears one column below the diagonal. */
  method EliminateColumn(rows: seq<seq<real>>, column: nat) returns (next: seq<seq<real>>)
    requires Augmented(rows) && column < |rows|
    requires Eliminated(rows, column) && GoodPivots(rows, column) && rows[column][column] != 0.0
    ensures SameSolutions(next, rows)
    ensures Eliminated(next, column + 1) && GoodPivots(next, column + 1)
    ensures KeepsProducts(next, rows, column) && forall i :: 0 <= i <= column ==> next[i] == rows[i]
  {
    next := rows;
    var head := rows[column][column];
    for row := column + 1 to |rows|
      invariant SameSolutions(next, rows)
      invariant forall i :: 0 <= i <= column ==> next[i] == rows[i]
      invariant KeepsProducts(next, rows, column)
      invariant Eliminated(next, column)
      invariant forall i :: column < i < row ==> next[i][column] == 0.0
    {
      var factor := next[row][column] / head;
      assert factor * head == next[row][column];
      if factor != 0.0 {
        var changed := SubtractRow(next, row, column, factor);
        RowMinusKeepsSolutions(next, row, column, factor, changed[row]);
        RowMinusKeepsProducts(changed, next, rows, column, row, factor);
        forall i, j | 0 <= j < column && j < i < |rows| ensures changed[i][j] == 0.0 {
          assert next[row][j] == 0.0 && next[column][j] == 0.0;
        }
        next := changed;
      }
    }
  }

  /** When an answer comes back it is the one and only solution of the system; when none
      does, the matrix is singular but for less than the least pivot. */
  method SolveNormalEquations(matrix: seq<seq<real>>, vector: seq<real>) returns (r: Option<seq<real>>)
    requires Square(matrix, vector)
    ensures r.Some? ==> IsSolution(matrix, vector, r.value)
    ensures r.Some? ==> forall y :: IsSolution(matrix, vector, y) ==> y == r.value
    ensures r.None? ==> NearlySingular(matrix, vector)
  {
    var size := |vector|;
    var rows := AugmentRows(matrix, vector);
    ghost var start := rows;
    for column := 0 to size
      invariant SameSolutions(rows, start) && |rows| == size
      invariant Eliminated(rows, column) && GoodPivots(rows, column)
      invariant StillSmall(rows, start, column)
    {
      var pivot := PivotRow(rows, column);
      if Abs(rows[pivot][column]) < MIN_PIVOT {
        ghost var y := SmallPivot(rows, column);
        SmallInTheMatrix(matrix, vector, start, y, column);
        return None;
      }
      SwapKeepsSolutions(rows, column, pivot);
      SwapStaysSmall(rows, start, column, pivot);
      rows := rows[column := rows[pivot]][pivot := rows[column]];
      ghost var before := rows;
      rows := EliminateColumn(rows, column);
      StepStaysSmall(rows, before, start, column);
    }
    var answer := seq(size, _ => 0.0);
    var row := size;
    while row > 0
      invariant row <= size == |answer| && SolvedFrom(rows, answer, row)
    {
      row := row - 1;
      var total := rows[row][size] - DotFrom(rows[row], answer, row + 1);
      ghost var before := answer;
      answer := answer[row := total / rows[row][row]];
      assert answer[row] == BackValue(rows[row], before, row);
      BackStep(rows, before, row, answer);
    }
    forall i | 0 <= i < size ensures DotFrom(rows[i], answer, 0) == rows[i][size] {
      DotSkipsZeros(rows[i], answer, i);
    }
    assert Solves(rows, answer);
    AugmentedMeansTheSame(matrix, vector, start, answer);
    forall y | IsSolution(matrix, vector, y) ensures y == answer {
      AugmentedMeansTheSame(matrix, vector, start, y);
      assert Solves(rows, y);
    }
    return Some(answer);
  }
}
