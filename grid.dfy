/**
 * Gridded fields as NumPy holds them: a shape and the values in row-major
 * order. Covers `np.squeeze`, the anomaly `(daily - background) * 1e-3` and
 * the flattened `np.meshgrid(lon, lat)` coordinate grids.
 */
module Grid {

  datatype NdArray = NdArray(shape: seq<nat>, data: seq<real>)

  /** The number of elements an array of this shape holds. */
  function Product(dims: seq<nat>): nat
  {
    if dims == [] then 1 else dims[0] * Product(dims[1..])
  }

  /** An array whose values fill its shape exactly, as every NumPy array does. */
  type Array = a: NdArray | |a.data| == Product(a.shape) witness NdArray([], [0.0])

  /** The shape `np.squeeze` leaves: every dimension of length one removed. */
  function DropOnes(dims: seq<nat>): (r: seq<nat>)
    ensures Product(r) == Product(dims)
    ensures forall i :: 0 <= i < |r| ==> r[i] != 1
    ensures |r| <= |dims|
    ensures forall d :: d in r <==> d in dims && d != 1
  {
    if dims == [] then []
    else if dims[0] == 1 then DropOnes(dims[1..])
    else [dims[0]] + DropOnes(dims[1..])
  }

  /** `np.squeeze(a)`: same values in the same order, no dimension of length one. */
  function Squeeze(a: Array): (r: Array)
    ensures r.data == a.data && |r.data| == Product(a.shape)
    ensures forall i :: 0 <= i < |r.shape| ==> r.shape[i] != 1
    ensures forall d :: d in r.shape <==> d in a.shape && d != 1
    ensures r.shape == DropOnes(a.shape)
  {
    NdArray(DropOnes(a.shape), a.data)
  }

  lemma {:induction false} DropOnesIdempotent(dims: seq<nat>)
    requires forall i :: 0 <= i < |dims| ==> dims[i] != 1
    ensures DropOnes(dims) == dims
  {
    if dims != [] {
      DropOnesIdempotent(dims[1..]);
    }
  }

  /** The surviving dimensions keep their order: squeezing a concatenation squeezes each part. */
  lemma {:induction false} DropOnesAppend(a: seq<nat>, b: seq<nat>)
    ensures DropOnes(a + b) == DropOnes(a) + DropOnes(b)
    decreases |a|
  {
    if a == [] {
      assert a + b == b;
    } else {
      assert (a + b)[0] == a[0] && (a + b)[1..] == a[1..] + b;
      DropOnesAppend(a[1..], b);
    }
  }

  /** One dimension survives exactly when it is not 1. */
  lemma DropOnesSingle(d: nat)
    ensures DropOnes([d]) == if d == 1 then [] else [d]
  {
    assert [d][1..] == [];
  }

  /** A daily grid read with a leading time axis of length one squeezes to its two spatial axes. */
  lemma DropOnesExample()
    ensures DropOnes([1, 600, 1440]) == [600, 1440]
  {
    DropOnesAppend([1], [600, 1440]);
    DropOnesSingle(1);
    assert [1, 600, 1440] == [1] + [600, 1440];
    DropOnesIdempotent([600, 1440]);
  }

  /** A length-one axis between the spatial axes is dropped just the same. */
  lemma DropOnesMiddleExample()
    ensures DropOnes([600, 1, 1440]) == [600, 1440]
  {
    DropOnesAppend([600], [1, 1440]);
    DropOnesAppend([1], [1440]);
    DropOnesSingle(600);
    DropOnesSingle(1);
    DropOnesSingle(1440);
    assert [600, 1, 1440] == [600] + ([1] + [1440]);
    assert [600, 1440] == [600] + [1440];
  }

  /** Squeezing twice is squeezing once. */
  lemma SqueezeIdempotent(a: Array)
    ensures Squeeze(Squeeze(a)) == Squeeze(a)
  {
    DropOnesIdempotent(Squeeze(a).shape);
  }

  /** Millimetres of water to metres. */
  const MetresPerMillimetre: real := 0.001

  /** `(daily - background) * 1e-3` on two arrays of the same shape. */
  function Anomaly(daily: Array, background: Array): (h: Array)
    requires daily.shape == background.shape
    ensures h.shape == daily.shape
    ensures forall i :: 0 <= i < |h.data| ==> h.data[i] * 1000.0 == daily.data[i] - background.data[i]
  {
    NdArray(daily.shape, seq(|daily.data|, i requires 0 <= i < |daily.data| => (daily.data[i] - background.data[i]) * MetresPerMillimetre))
  }

  lemma RowMajorBound(i: nat, j: nat, rows: nat, cols: nat)
    requires i < rows && j < cols
    ensures i * cols + j < rows * cols
  {
    calc {
      i * cols + j;
    <  i * cols + cols;
    == (i + 1) * cols;
    <= rows * cols;
    }
  }

  lemma ProductOfTwo(dims: seq<nat>)
    requires |dims| == 2
    ensures Product(dims) == dims[0] * dims[1]
  {
    assert dims[1..][1..] == [];
    assert Product(dims[1..]) == dims[1] * Product(dims[1..][1..]);
  }

  /** The element in row i, column j of a two-dimensional array. */
  function Cell(a: Array, i: nat, j: nat): real
    requires |a.shape| == 2 && i < a.shape[0] && j < a.shape[1]
  {
    RowMajorBound(i, j, a.shape[0], a.shape[1]);
    ProductOfTwo(a.shape);
    a.data[i * a.shape[1] + j]
  }

  /** On a two-dimensional grid every cell of the anomaly is the cell difference scaled by 1/1000. */
  lemma AnomalyCell(daily: Array, background: Array, i: nat, j: nat)
    requires daily.shape == background.shape && |daily.shape| == 2
    requires i < daily.shape[0] && j < daily.shape[1]
    ensures Cell(Anomaly(daily, background), i, j) == (Cell(daily, i, j) - Cell(background, i, j)) * 0.001
  {
    RowMajorBound(i, j, daily.shape[0], daily.shape[1]);
    ProductOfTwo(daily.shape);
  }

  function Repeat(x: real, n: nat): (r: seq<real>)
    ensures |r| == n && forall k :: 0 <= k < n ==> r[k] == x
  {
    seq(n, _ => x)
  }

  /** `lat_grid.flatten()`: each latitude repeated once per column, row after row. */
  function MeshLat(lat: seq<real>, cols: nat): (r: seq<real>)
    ensures |r| == |lat| * cols
  {
    if lat == [] then [] else Repeat(lat[0], cols) + MeshLat(lat[1..], cols)
  }

  /** `lon_grid.flatten()`: the longitude axis once per row. */
  function MeshLon(lon: seq<real>, rows: nat): (r: seq<real>)
    ensures |r| == rows * |lon|
  {
    if rows == 0 then [] else lon + MeshLon(lon, rows - 1)
  }

  /** Flat index i * cols + j of the latitude grid holds the latitude of row i. */
  lemma {:induction false} MeshLatAt(lat: seq<real>, cols: nat, i: nat, j: nat)
    requires i < |lat| && j < cols
    ensures i * cols + j < |MeshLat(lat, cols)| && MeshLat(lat, cols)[i * cols + j] == lat[i]
  {
    RowMajorBound(i, j, |lat|, cols);
    if i > 0 {
      MeshLatAt(lat[1..], cols, i - 1, j);
      assert i * cols + j == cols + ((i - 1) * cols + j);
    }
  }

  /** Flat index i * |lon| + j of the longitude grid holds the longitude of column j. */
  lemma {:induction false} MeshLonAt(lon: seq<real>, rows: nat, i: nat, j: nat)
    requires i < rows && j < |lon|
    ensures i * |lon| + j < |MeshLon(lon, rows)| && MeshLon(lon, rows)[i * |lon| + j] == lon[j]
  {
    RowMajorBound(i, j, rows, |lon|);
    if i > 0 {
      MeshLonAt(lon, rows - 1, i - 1, j);
      assert i * |lon| + j == |lon| + ((i - 1) * |lon| + j);
    }
  }

  /** The three parallel sequences handed to the integrator. */
  datatype FlatField = FlatField(h: seq<real>, lat: seq<real>, lon: seq<real>)

  /** Lines 77-82: the anomaly flattened beside `meshgrid(lon, lat)` flattened. */
  function Flatten(h: Array, lat: seq<real>, lon: seq<real>): (f: FlatField)
    ensures f.h == h.data
    ensures |f.lat| == |f.lon| == |lat| * |lon|
  {
    FlatField(h.data, MeshLat(lat, |lon|), MeshLon(lon, |lat|))
  }

  /**
   * If the grid has as many cells as the coordinate axes span (the reader's
   * promise; line 80 does not check it), the three sequences are parallel and
   * flat index i * |lon| + j holds h[i][j], lat[i] and lon[j].
   */
  lemma FlattenAt(h: Array, lat: seq<real>, lon: seq<real>, i: nat, j: nat)
    requires h.shape == [|lat|, |lon|]
    requires i < |lat| && j < |lon|
    ensures |Flatten(h, lat, lon).h| == |Flatten(h, lat, lon).lat| == |Flatten(h, lat, lon).lon| == |lat| * |lon|
    ensures var f, k := Flatten(h, lat, lon), i * |lon| + j;
      k < |f.h| && f.h[k] == Cell(h, i, j) && f.lat[k] == lat[i] && f.lon[k] == lon[j]
  {
    ProductOfTwo(h.shape);
    RowMajorBound(i, j, |lat|, |lon|);
    MeshLatAt(lat, |lon|, i, j);
    MeshLonAt(lon, |lat|, i, j);
  }
}
