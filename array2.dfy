/** The few operations of a two-dimensional `ndarray` array of `f64` that XIC
    construction uses, and the index selected by `Iterator::max_by`. */
module Array2 {
  import opened Common

  /** A two-dimensional array in standard (row-major) layout. */
  datatype Array2 = Array2(rows: nat, cols: nat, cells: seq<real>)

  predicate WellShaped(a: Array2) {
    |a.cells| == a.rows * a.cols
  }

  /** `Array2::from_shape_vec((rows, cols), v)`: fails unless `v` holds
      exactly `rows * cols` elements. */
  function FromShapeVec(rows: nat, cols: nat, v: seq<real>): (r: Option<Array2>)
    ensures r.Some? <==> |v| == rows * cols
    ensures r.Some? ==> WellShaped(r.value) && r.value.cols == cols && r.value.cells == v
  {
    if |v| == rows * cols then Some(Array2(rows, cols, v)) else None
  }

  /** `is_empty()`: the array has no element. */
  predicate IsEmpty(a: Array2) {
    a.rows * a.cols == 0
  }

  /** The sum of a sequence of numbers. */
  function SeqSum(xs: seq<real>): real
  {
    if |xs| == 0 then 0.0 else SeqSum(xs[..|xs| - 1]) + xs[|xs| - 1]
  }

  /** `sum()`: the sum of all elements. */
  function Sum(a: Array2): real {
    SeqSum(a.cells)
  }

  lemma {:induction false} SeqSumConcat(xs: seq<real>, ys: seq<real>)
    ensures SeqSum(xs + ys) == SeqSum(xs) + SeqSum(ys)
    decreases |ys|
  {
    if |ys| > 0 {
      var last := |ys| - 1;
      assert (xs + ys)[..|xs + ys| - 1] == xs + ys[..last];
      SeqSumConcat(xs, ys[..last]);
    } else {
      assert xs + ys == xs;
    }
  }

  lemma CellInBounds(a: Array2, i: nat, j: nat)
    requires WellShaped(a) && i < a.rows && j < a.cols
    ensures i * a.cols + j < |a.cells|
  {
    assert i * a.cols <= (a.rows - 1) * a.cols by {
      assert (a.rows - 1 - i) * a.cols >= 0;
    }
  }

  /** `column(j)`: the j-th element of every row, top to bottom. */
  function Column(a: Array2, j: nat): (c: seq<real>)
    requires WellShaped(a) && j < a.cols
    ensures |c| == a.rows
    ensures forall i :: 0 <= i < a.rows ==> i * a.cols + j < |a.cells| && c[i] == a.cells[i * a.cols + j]
  {
    forall i | 0 <= i < a.rows
      ensures i * a.cols + j < |a.cells|
    {
      CellInBounds(a, i, j);
    }
    seq(a.rows, i requires 0 <= i < a.rows => a.cells[i * a.cols + j])
  }

  /** The column of a two-row array: one element from each row. */
  lemma TwoRowColumn(a: Array2, j: nat)
    requires WellShaped(a) && a.rows == 2 && j < a.cols
    ensures Column(a, j) == [a.cells[j], a.cells[a.cols + j]]
  {
    var c := Column(a, j);
    assert c[0] == a.cells[0 * a.cols + j];
    assert c[1] == a.cells[1 * a.cols + j];
  }

  /** The index that `Iterator::max_by` picks over the enumerated elements,
      comparing values: a fold that keeps the current maximum unless the next
      element compares less, so among equal maxima the LAST one is chosen. */
  function MaxByIndex(xs: seq<real>): (r: Option<nat>)
    ensures r.None? <==> |xs| == 0
    ensures r.Some? ==> r.value < |xs|
    ensures r.Some? ==> forall j :: 0 <= j < |xs| ==> xs[j] <= xs[r.value]
    ensures r.Some? ==> forall j :: r.value < j < |xs| ==> xs[j] < xs[r.value]
    decreases |xs|
  {
    if |xs| == 0 then None
    else
      match MaxByIndex(xs[..|xs| - 1])
      case None => Some(0)
      case Some(k) => if xs[k] > xs[|xs| - 1] then Some(k) else Some(|xs| - 1)
  }
}
