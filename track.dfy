/**
 * Orbit positions and the array handling between the orbit loader and the
 * integrator: stride decimation `[::interval]`, the probe array that pairs
 * S1 longitude with S2 latitude, and the selection of both satellites by one
 * index set.
 */
module Track {
  import opened Outcomes

  /** One sample epoch of one satellite, in geodetic coordinates (`obj.position`). */
  datatype Point = Point(lon: real, lat: real, h: real)

  /** `s[::k]` for a positive step: the first element, then every k-th after it. */
  function Stride<T>(s: seq<T>, k: nat): (r: seq<T>)
    requires k >= 1
    ensures |r| <= |s|
    decreases |s|
  {
    if |s| == 0 then [] else [s[0]] + Stride(s[if k <= |s| then k else |s|..], k)
  }

  /** `s[::k]` starts with the first element, and `s[::1]` is `s` itself. */
  lemma {:induction false} StrideHead<T>(s: seq<T>, k: nat)
    requires k >= 1
    ensures s != [] ==> Stride(s, k) != [] && Stride(s, k)[0] == s[0]
    ensures k == 1 ==> Stride(s, k) == s
    decreases |s|
  {
    if s != [] && k == 1 {
      StrideHead(s[1..], k);
      assert s == [s[0]] + s[1..];
    }
  }

  lemma MulMonotone(x: nat, y: nat, k: nat)
    requires x <= y
    ensures x * k <= y * k
  {
    assert y * k == x * k + (y - x) * k;
  }

  /** The quotient is the unique q with q * k <= a < (q + 1) * k. */
  lemma DivUnique(a: nat, k: nat, q: nat)
    requires k >= 1 && q * k <= a < (q + 1) * k
    ensures a / k == q
  {
    var d, r := a / k, a % k;
    assert a == d * k + r && 0 <= r < k;
    assert d >= q by {
      if d < q {
        MulMonotone(d + 1, q, k);
      }
    }
    assert d <= q by {
      if d > q {
        MulMonotone(q + 1, d, k);
      }
    }
  }

  /** One step of `s[::k]`: the first element, then the stride of what lies k further on. */
  lemma StrideStep<T>(s: seq<T>, k: nat)
    requires k >= 1 && |s| > 0
    ensures |s| <= k ==> Stride(s, k) == [s[0]]
    ensures |s| > k ==> Stride(s, k) == [s[0]] + Stride(s[k..], k)
  {
    if |s| <= k {
      assert s[|s|..] == [];
    }
  }

  lemma MulStep(i: nat, k: nat)
    requires i > 0
    ensures i * k == k + (i - 1) * k
  {
  }

  /** `s[::k]` has the fewest elements that, k apart, reach past the end of `s`. */
  lemma {:induction false} StrideCovers<T>(s: seq<T>, k: nat)
    requires k >= 1
    ensures |s| == 0 ==> |Stride(s, k)| == 0
    ensures |s| > 0 ==> (|Stride(s, k)| - 1) * k < |s| <= |Stride(s, k)| * k
    decreases |s|
  {
    if |s| > 0 {
      StrideStep(s, k);
      if |s| > k {
        StrideCovers(s[k..], k);
        var l := |Stride(s[k..], k)|;
        assert |Stride(s, k)| == l + 1;
        MulStep(l + 1, k);
      }
    }
  }

  /** `s[::k]` has ceil(|s| / k) elements. */
  lemma StrideLength<T>(s: seq<T>, k: nat)
    requires k >= 1
    ensures |Stride(s, k)| == (|s| + k - 1) / k
  {
    StrideCovers(s, k);
    var l := |Stride(s, k)|;
    if |s| == 0 {
      DivUnique(k - 1, k, 0);
    } else {
      assert (l + 1) * k == l * k + k;
      assert (l - 1) * k + k == l * k;
      DivUnique(|s| + k - 1, k, l);
    }
  }

  /** Element i of `s[::k]` is element i * k of `s`. */
  lemma {:induction false} StrideAt<T>(s: seq<T>, k: nat, i: nat)
    requires k >= 1 && i < |Stride(s, k)|
    ensures i * k < |s| && Stride(s, k)[i] == s[i * k]
    decreases |s|
  {
    StrideStep(s, k);
    if i > 0 {
      var rest := s[k..];
      StrideAt(rest, k, i - 1);
      MulStep(i, k);
    }
  }

  function Reverse<T>(s: seq<T>): (r: seq<T>)
    ensures |r| == |s| && forall i :: 0 <= i < |s| ==> r[i] == s[|s| - 1 - i]
  {
    seq(|s|, i requires 0 <= i < |s| => s[|s| - 1 - i])
  }

  /** `s[::step]`; a zero step raises `ValueError`, a negative one walks back from the last element. */
  function Slice<T>(s: seq<T>, step: int): (r: Option<seq<T>>)
    ensures r.None? <==> step == 0
  {
    if step == 0 then None
    else if step > 0 then Some(Stride(s, step))
    else Some(Stride(Reverse(s), -step))
  }

  /**
   * With a positive step the slice keeps exactly the elements at 0, step, 2 * step, ...:
   * ceil(|s| / step) elements, element i taken from position i * step.
   */
  lemma SliceForward<T>(s: seq<T>, step: int, i: nat)
    requires step > 0
    ensures Slice(s, step).Some? && |Slice(s, step).value| == (|s| + step - 1) / step
    ensures i < |Slice(s, step).value| ==> i * step < |s| && Slice(s, step).value[i] == s[i * step]
  {
    StrideLength(s, step);
    if i < |Stride(s, step)| {
      StrideAt(s, step, i);
    }
  }

  /** With a negative step element i is taken from position |s| - 1 - i * |step|. */
  lemma SliceBackward<T>(s: seq<T>, step: int, i: nat)
    requires step < 0
    ensures Slice(s, step).Some? && |Slice(s, step).value| == (|s| - step - 1) / -step
    ensures i < |Slice(s, step).value| ==> i * -step < |s| && Slice(s, step).value[i] == s[|s| - 1 - i * -step]
  {
    StrideLength(Reverse(s), -step);
    if i < |Stride(Reverse(s), -step)| {
      StrideAt(Reverse(s), -step, i);
    }
  }

  /** One stride applied to two satellites of equal length keeps them index-aligned: sample i of each comes from the same original epoch. */
  lemma SliceAligned<T>(s1: seq<T>, s2: seq<T>, step: int, i: nat)
    requires |s1| == |s2| && step > 0
    requires i < |Slice(s1, step).value|
    ensures |Slice(s1, step).value| == |Slice(s2, step).value|
    ensures i * step < |s1| && Slice(s1, step).value[i] == s1[i * step] && Slice(s2, step).value[i] == s2[i * step]
  {
    SliceForward(s1, step, i);
    SliceForward(s2, step, i);
  }

  /** `np.column_stack([posc[:, 0], posd[:, 1]])`: row k is S1's longitude with S2's latitude. */
  function Probe(s1: seq<Point>, s2: seq<Point>): (r: seq<(real, real)>)
    requires |s1| == |s2|
    ensures |r| == |s1|
    ensures forall k :: 0 <= k < |r| ==> r[k].0 == s1[k].lon && r[k].1 == s2[k].lat
  {
    seq(|s1|, k requires 0 <= k < |s1| => (s1[k].lon, s2[k].lat))
  }

  /** NumPy accepts indices from -n to n - 1. */
  predicate AllInRange(idx: seq<int>, n: nat)
  {
    forall m :: 0 <= m < |idx| ==> -(n as int) <= idx[m] < n
  }

  /** The position an accepted index denotes: negative ones count from the end. */
  function Epoch(i: int, n: nat): (e: nat)
    requires -(n as int) <= i < n
    ensures e < n && (i >= 0 ==> e == i) && (i < 0 ==> e == n + i)
  {
    if i >= 0 then i else n + i
  }

  /** `pos[indices]`: the samples at the given indices, in index order. */
  function Take(s: seq<Point>, idx: seq<int>): (r: seq<Point>)
    requires AllInRange(idx, |s|)
    ensures |r| == |idx|
    ensures forall m :: 0 <= m < |idx| ==> r[m] == s[Epoch(idx[m], |s|)]
  {
    seq(|idx|, m requires 0 <= m < |idx| => s[Epoch(idx[m], |s|)])
  }

  /**
   * Lines 116-117: both satellites selected with one index set. `None` where
   * an index is out of range (NumPy raises `IndexError`).
   */
  function SelectTracks(s1: seq<Point>, s2: seq<Point>, idx: seq<int>): (r: Option<(seq<Point>, seq<Point>)>)
    requires |s1| == |s2|
    ensures r.None? <==> !AllInRange(idx, |s1|)
    ensures r.Some? ==> |r.value.0| == |r.value.1| == |idx|
    ensures r.Some? ==> forall m :: 0 <= m < |idx| ==>
      var e := Epoch(idx[m], |s1|); r.value.0[m] == s1[e] && r.value.1[m] == s2[e]
  {
    if AllInRange(idx, |s1|) then Some((Take(s1, idx), Take(s2, idx))) else None
  }

  /** `track[:, 1]`, `track[:, 0]` and `track[:, 2]`. */
  function Lats(t: seq<Point>): (r: seq<real>)
    ensures |r| == |t| && forall m :: 0 <= m < |t| ==> r[m] == t[m].lat
  {
    seq(|t|, m requires 0 <= m < |t| => t[m].lat)
  }

  function Lons(t: seq<Point>): (r: seq<real>)
    ensures |r| == |t| && forall m :: 0 <= m < |t| ==> r[m] == t[m].lon
  {
    seq(|t|, m requires 0 <= m < |t| => t[m].lon)
  }

  function Heights(t: seq<Point>): (r: seq<real>)
    ensures |r| == |t| && forall m :: 0 <= m < |t| ==> r[m] == t[m].h
  {
    seq(|t|, m requires 0 <= m < |t| => t[m].h)
  }

  /** The sampling used by the project's configuration (`orbit_interval = 5`): epochs 0, 5, 10, ... */
  lemma StrideFiveExample()
    ensures Slice([0, 1, 2, 3, 4, 5, 6, 7, 8, 9, 10, 11], 5) == Some([0, 5, 10])
  {
    var s := [0, 1, 2, 3, 4, 5, 6, 7, 8, 9, 10, 11];
    assert s[5..] == [5, 6, 7, 8, 9, 10, 11];
    assert s[5..][5..] == [10, 11];
    assert s[5..][5..][2..] == [];
    assert Stride([10, 11], 5) == [10];
    assert Stride(s[5..], 5) == [5] + Stride([10, 11], 5);
    assert Stride(s, 5) == [0] + Stride(s[5..], 5);
    assert Stride(s, 5) == [0, 5, 10];
    assert Slice(s, 5) == Some([0, 5, 10]);
  }
}
