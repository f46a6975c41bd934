/**
 * NumPy arrays as the pipeline uses them: a leading axis of rows, each row a tensor of the
 * same shape.  Only the leading axis is ever sliced, counted or stacked.
 */
module NdArrays {

  /** A number, or a stack of equally shaped sub-tensors. */
  datatype Tensor = Scalar(value: real) | Stack(parts: seq<Tensor>)

  /** An array of shape `(|rows|,) + rowShape`. */
  datatype NdArray = NdArray(rows: seq<Tensor>, rowShape: seq<nat>)

  function Shape(a: NdArray): seq<nat>
  {
    [|a.rows|] + a.rowShape
  }

  predicate HasShape(t: Tensor, shape: seq<nat>)
    decreases t
  {
    match t
    case Scalar(_) => shape == []
    case Stack(parts) =>
      && shape != [] && |parts| == shape[0]
      && forall i :: 0 <= i < |parts| ==> HasShape(parts[i], shape[1..])
  }

  /** Every row has the declared row shape. */
  predicate WellShaped(a: NdArray)
  {
    forall i :: 0 <= i < |a.rows| ==> HasShape(a.rows[i], a.rowShape)
  }

  /** `len(a)`: the extent of the leading axis. */
  function Length(a: NdArray): nat
  {
    |a.rows|
  }

  /** A one-dimensional array row `[v[0], ..., v[n-1]]`. */
  function Vector(v: seq<real>): (t: Tensor)
    ensures HasShape(t, [|v|])
  {
    Stack(seq(|v|, i requires 0 <= i < |v| => Scalar(v[i])))
  }

  /** A two-dimensional array whose rows are `rows`, each of `width` entries. */
  function Matrix(rows: seq<seq<real>>, width: nat): (a: NdArray)
    ensures |a.rows| == |rows| && a.rowShape == [width]
    ensures (forall i :: 0 <= i < |rows| ==> |rows[i]| == width) ==> WellShaped(a)
  {
    NdArray(seq(|rows|, i requires 0 <= i < |rows| => Vector(rows[i])), [width])
  }

  /** Where a Python slice bound `k` falls on a sequence of length `n` (negative counts from the end). */
  function SliceBound(k: int, n: nat): (r: nat)
    ensures r <= n
    ensures 0 <= k <= n ==> r == k
    ensures k > n ==> r == n
    ensures k < 0 ==> r == if n + k < 0 then 0 else n + k
  {
    if k < 0 then (if n + k < 0 then 0 else n + k) else if k > n then n else k
  }

  /** `a[:k]`. */
  function TakeRows(a: NdArray, k: int): NdArray
  {
    NdArray(a.rows[..SliceBound(k, |a.rows|)], a.rowShape)
  }

  /** `a[k:]`. */
  function DropRows(a: NdArray, k: int): NdArray
  {
    NdArray(a.rows[SliceBound(k, |a.rows|)..], a.rowShape)
  }

  /** `[x[:k] for x in xs]`. */
  function TakeAll(xs: seq<NdArray>, k: int): (r: seq<NdArray>)
    ensures |r| == |xs|
  {
    seq(|xs|, i requires 0 <= i < |xs| => TakeRows(xs[i], k))
  }

  /** `[x[k:] for x in xs]`. */
  function DropAll(xs: seq<NdArray>, k: int): (r: seq<NdArray>)
    ensures |r| == |xs|
  {
    seq(|xs|, i requires 0 <= i < |xs| => DropRows(xs[i], k))
  }

  /** `a[:k]` and `a[k:]` split `a` in order, with no row lost or repeated. */
  lemma TakeDropPartition(a: NdArray, k: int)
    ensures TakeRows(a, k).rows + DropRows(a, k).rows == a.rows
    ensures TakeRows(a, k).rowShape == DropRows(a, k).rowShape == a.rowShape
    ensures WellShaped(a) ==> WellShaped(TakeRows(a, k)) && WellShaped(DropRows(a, k))
  {
    var c := SliceBound(k, |a.rows|);
    assert a.rows[..c] + a.rows[c..] == a.rows;
  }

  /** Dropping `k >= 0` leading rows leaves `max(len - k, 0)`. */
  lemma DropLength(a: NdArray, k: nat)
    ensures Length(DropRows(a, k)) == if k < |a.rows| then |a.rows| - k else 0
    ensures forall i :: 0 <= i < Length(DropRows(a, k)) ==> DropRows(a, k).rows[i] == a.rows[k + i]
  {
  }

  /** The number of windows `range(size, len)` yields. */
  function WindowCount(n: nat, size: nat): nat
  {
    if size < n then n - size else 0
  }

  /**
   * `_setup_seq`: window `k` stacks the `size` rows before row `k + size`; when there is no
   * window the result is `np.array([])`, of shape `(0,)`.
   */
  function Windows(a: NdArray, size: nat): NdArray
  {
    var count := WindowCount(|a.rows|, size);
    if count == 0 then NdArray([], [])
    else NdArray(seq(count, k requires 0 <= k < count => Stack(a.rows[k..k + size])), [size] + a.rowShape)
  }

  /** There are `max(len - size, 0)` windows, and window `k` is `a[k:k+size]`. */
  lemma WindowsContent(a: NdArray, size: nat)
    ensures Length(Windows(a, size)) == WindowCount(|a.rows|, size)
    ensures forall k :: 0 <= k < Length(Windows(a, size)) ==>
      k + size <= |a.rows| && Windows(a, size).rows[k] == Stack(a.rows[k..k + size])
    ensures Length(Windows(a, size)) == 0 <==> Windows(a, size) == NdArray([], [])
  {
  }

  /** Stacked windows of a well-shaped array are well shaped, of row shape `(size,) + rowShape`. */
  lemma WindowsShaped(a: NdArray, size: nat)
    requires WellShaped(a)
    ensures WellShaped(Windows(a, size))
    ensures Length(Windows(a, size)) > 0 ==> Windows(a, size).rowShape == [size] + a.rowShape
  {
    var w := Windows(a, size);
    forall k | 0 <= k < |w.rows| ensures HasShape(w.rows[k], w.rowShape) {
      var parts := a.rows[k..k + size];
      assert w.rows[k] == Stack(parts);
      assert w.rowShape[1..] == a.rowShape;
      assert forall i :: 0 <= i < |parts| ==> parts[i] == a.rows[k + i];
    }
  }

  /** Consecutive windows overlap in all but one row: the window slides one row at a time. */
  lemma WindowsSlide(a: NdArray, size: nat, k: nat)
    requires size > 0 && k + 1 < Length(Windows(a, size))
    ensures Windows(a, size).rows[k + 1].parts[..size - 1] == Windows(a, size).rows[k].parts[1..]
    ensures Windows(a, size).rows[k + 1].parts[size - 1] == a.rows[k + size]
  {
    WindowsContent(a, size);
  }

  /**
   * Windows of `x` line up with `y` trimmed by `size`: entry `k` of both belongs to row
   * `k + size`, and the window holds the `size` rows of `x` just before it.
   */
  lemma WindowsAligned(x: NdArray, y: NdArray, size: nat)
    requires |x.rows| == |y.rows|
    ensures Length(Windows(x, size)) == Length(DropRows(y, size))
    ensures forall k :: 0 <= k < Length(Windows(x, size)) ==>
      && Windows(x, size).rows[k] == Stack(x.rows[k..k + size])
      && DropRows(y, size).rows[k] == y.rows[k + size]
  {
    WindowsContent(x, size);
    DropLength(y, size);
  }
}
