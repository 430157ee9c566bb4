/**
  The depth addon's post-processing step (`DepthEstimator.post_process` in
  vsdkx/addon/depth/processor.py): given a depth surface and the detections
  of one frame, it orders the detections by the mean depth around their box
  centres, largest value first, and labels each with a distance stage.

  The depth surface is an input here; the MiDaS model that produces it from
  the frame is not part of this model.  Depth values are exact reals.
 */
module DepthProcessor {
  import opened Wrappers
  import opened PySlice
  import opened ArgSort

  /** A depth surface: a numpy H x W array, one sequence of samples per image row. */
  type Surface = seq<seq<real>>

  /** A detection box in pixel coordinates, x for columns and y for rows. */
  datatype Box = Box(x1: int, y1: int, x2: int, y2: int)

  /** A pixel position, row first. */
  datatype Point = Point(row: int, col: int)

  /** The key of `inference.extra` the stage ids are written under. */
  const DistanceIdsKey: string := "distance_ids"

  /** Every row has the width of the first: numpy arrays are rectangular. */
  predicate IsGrid(d: Surface)
  {
    forall i :: 0 <= i < |d| ==> |d[i]| == |d[0]|
  }

  // ---------------------------------------------------------------- casts

  /** Python's `int(x)` on a float, and numpy's `astype(np.int32)`: truncation toward zero. */
  function Trunc(x: real): (r: int)
    ensures 0.0 <= x ==> (r as real) <= x < (r as real) + 1.0
    ensures x < 0.0 ==> (r as real) - 1.0 < x <= (r as real)
  {
    if x >= 0.0 then x.Floor else -((-x).Floor)
  }

  /** `int(n / 2)` for an integer n, computed without floats. */
  function HalfTowardZero(n: int): (r: int)
    ensures r == Trunc((n as real) / 2.0)
  {
    if n >= 0 then n / 2 else -((-n) / 2)
  }

  /** `np.array(xs).astype(np.int32)` on floats (the int32 range is not modelled). */
  function TruncAll(xs: seq<real>): (r: seq<int>)
    ensures |r| == |xs|
    ensures forall k :: 0 <= k < |xs| ==> r[k] == Trunc(xs[k])
  {
    seq(|xs|, k requires 0 <= k < |xs| => Trunc(xs[k]))
  }

  /** The stored value of an int32 in a field that otherwise holds floats. */
  function AsReals(xs: seq<int>): (r: seq<real>)
    ensures |r| == |xs|
    ensures forall k :: 0 <= k < |xs| ==> r[k] == (xs[k] as real)
  {
    seq(|xs|, k requires 0 <= k < |xs| => (xs[k] as real))
  }

  // -------------------------------------------------- centres and windows

  /** `_get_center_points` for one box: the centre, row first. */
  function CenterPoint(b: Box): (c: Point)
    ensures c.row == Trunc(((b.y1 + b.y2) as real) / 2.0)
    ensures c.col == Trunc(((b.x1 + b.x2) as real) / 2.0)
  {
    Point(HalfTowardZero(b.y1 + b.y2), HalfTowardZero(b.x1 + b.x2))
  }

  /** `_get_center_points`. */
  function CenterPoints(coords: seq<Box>): (r: seq<Point>)
    ensures |r| == |coords|
    ensures forall i :: 0 <= i < |coords| ==> r[i] == CenterPoint(coords[i])
  {
    seq(|coords|, i requires 0 <= i < |coords| => CenterPoint(coords[i]))
  }

  /** `image[(y - s):(y + s), (x - s):(x + s)]` for the centre (y, x). */
  function CenterArea(image: Surface, c: Point, squareSize: int): (w: Surface)
    ensures |w| == |Slice(image, c.row - squareSize, c.row + squareSize)|
    ensures forall i :: 0 <= i < |w| ==>
      Bound(c.row - squareSize, |image|) + i < |image| &&
      w[i] == Slice(image[Bound(c.row - squareSize, |image|) + i], c.col - squareSize, c.col + squareSize)
  {
    var top, n := Bound(c.row - squareSize, |image|), |Slice(image, c.row - squareSize, c.row + squareSize)|;
    seq(n, i requires 0 <= i < n => Slice(image[top + i], c.col - squareSize, c.col + squareSize))
  }

  /** `_get_center_area`. */
  function CenterAreas(image: Surface, centers: seq<Point>, squareSize: int): (r: seq<Surface>)
    ensures |r| == |centers|
    ensures forall i :: 0 <= i < |centers| ==> r[i] == CenterArea(image, centers[i], squareSize)
  {
    seq(|centers|, i requires 0 <= i < |centers| => CenterArea(image, centers[i], squareSize))
  }

  /** The window sampled around a box's centre. */
  function BoxWindow(image: Surface, b: Box, squareSize: int): Surface
  {
    CenterArea(image, CenterPoint(b), squareSize)
  }

  /** A window that lies inside a rectangular surface is 2s rows of 2s samples
      each, read off the surface from row y - s and column x - s. */
  lemma CenterAreaInside(image: Surface, c: Point, s: int)
    requires IsGrid(image) && |image| > 0
    requires 0 <= s <= c.row && c.row + s <= |image|
    requires s <= c.col && c.col + s <= |image[0]|
    ensures var w := CenterArea(image, c, s);
      |w| == 2 * s &&
      forall i :: 0 <= i < 2 * s ==>
        |w[i]| == 2 * s &&
        forall j :: 0 <= j < 2 * s ==> w[i][j] == image[c.row - s + i][c.col - s + j]
  {
    var w := CenterArea(image, c, s);
    assert Bound(c.row - s, |image|) == c.row - s && Bound(c.row + s, |image|) == c.row + s;
    forall i | 0 <= i < 2 * s
      ensures |w[i]| == 2 * s
      ensures forall j :: 0 <= j < 2 * s ==> w[i][j] == image[c.row - s + i][c.col - s + j]
    {
      var row := image[c.row - s + i];
      CenterAreaInsideRow(image, c, s, i);
      assert w[i] == row[c.col - s..c.col + s];
    }
  }

  lemma CenterAreaInsideRow(image: Surface, c: Point, s: int, i: int)
    requires IsGrid(image) && |image| > 0
    requires 0 <= s <= c.row && c.row + s <= |image|
    requires s <= c.col && c.col + s <= |image[0]|
    requires 0 <= i < 2 * s
    ensures 0 <= c.row - s + i < |image| && |image[c.row - s + i]| == |image[0]|
    ensures i < |CenterArea(image, c, s)|
    ensures CenterArea(image, c, s)[i] == image[c.row - s + i][c.col - s..c.col + s]
  {
    SliceWithin(image, c.row - s, c.row + s);
    var top := Bound(c.row - s, |image|);
    assert top == c.row - s;
    var row := image[top + i];
    assert |row| == |image[0]|;
    CenterAreaRow(image, c, s, i);
    SliceWithin(row, c.col - s, c.col + s);
    assert CenterArea(image, c, s)[i] == row[c.col - s..c.col + s];
  }

  // ---------------------------------------------------- window statistics

  function RowTotal(r: seq<real>): real
  {
    if r == [] then 0.0 else RowTotal(r[..|r| - 1]) + r[|r| - 1]
  }

  /** The sum of all samples of a window. */
  function Total(w: Surface): real
  {
    if w == [] then 0.0 else Total(w[..|w| - 1]) + RowTotal(w[|w| - 1])
  }

  /** The number of samples of a window (numpy's `size`). */
  function Size(w: Surface): nat
  {
    if w == [] then 0 else Size(w[..|w| - 1]) + |w[|w| - 1]|
  }

  /** `grid.mean()` of a non-empty window. */
  function Mean(w: Surface): real
    requires Size(w) > 0
  {
    Total(w) / (Size(w) as real)
  }

  /** Every sample of the row r lies in [lo, hi]. */
  predicate RowWithin(r: seq<real>, lo: real, hi: real)
  {
    forall j :: 0 <= j < |r| ==> lo <= r[j] <= hi
  }

  /** Every sample of d lies in [lo, hi]. */
  predicate Within(d: Surface, lo: real, hi: real)
  {
    forall i, j :: 0 <= i < |d| && 0 <= j < |d[i]| ==> lo <= d[i][j] <= hi
  }

  /** x added to itself n times, so that the bounds below stay linear. */
  function Times(x: real, n: nat): real
  {
    if n == 0 then 0.0 else x + Times(x, n - 1)
  }

  lemma {:induction false} TimesAdd(x: real, a: nat, b: nat)
    ensures Times(x, a + b) == Times(x, a) + Times(x, b)
    decreases b
  {
    if b > 0 {
      TimesAdd(x, a, b - 1);
    }
  }

  lemma {:induction false} TimesIsProduct(x: real, n: nat)
    ensures Times(x, n) == x * (n as real)
  {
    if n > 0 {
      TimesIsProduct(x, n - 1);
      assert x * (n as real) == x + x * ((n - 1) as real);
    }
  }

  lemma {:induction false} RowTotalBounds(r: seq<real>, lo: real, hi: real)
    requires RowWithin(r, lo, hi)
    ensures Times(lo, |r|) <= RowTotal(r) <= Times(hi, |r|)
  {
    if r != [] {
      RowTotalBounds(r[..|r| - 1], lo, hi);
      TimesAdd(lo, |r| - 1, 1);
      TimesAdd(hi, |r| - 1, 1);
    }
  }

  lemma {:induction false} TotalBounds(w: Surface, lo: real, hi: real)
    requires Within(w, lo, hi)
    ensures Times(lo, Size(w)) <= Total(w) <= Times(hi, Size(w))
  {
    if w != [] {
      var init, last := w[..|w| - 1], w[|w| - 1];
      WithinSplit(w, lo, hi);
      RowTotalBounds(last, lo, hi);
      TotalBounds(init, lo, hi);
      TimesAdd(lo, Size(init), |last|);
      TimesAdd(hi, Size(init), |last|);
    }
  }

  lemma WithinSplit(w: Surface, lo: real, hi: real)
    requires Within(w, lo, hi) && w != []
    ensures RowWithin(w[|w| - 1], lo, hi)
    ensures Within(w[..|w| - 1], lo, hi)
  {
    var init := w[..|w| - 1];
    forall i, j | 0 <= i < |init| && 0 <= j < |init[i]|
      ensures lo <= init[i][j] <= hi
    {
      assert init[i] == w[i];
    }
  }

  lemma DivBounds(t: real, n: real, lo: real, hi: real)
    requires n > 0.0 && lo * n <= t <= hi * n
    ensures lo <= t / n <= hi
  {
  }

  /** A total of n samples in [lo, hi] has its average in [lo, hi]. */
  lemma AverageBounds(t: real, n: nat, lo: real, hi: real)
    requires n > 0 && Times(lo, n) <= t <= Times(hi, n)
    ensures lo <= t / (n as real) <= hi
  {
    TimesIsProduct(lo, n);
    TimesIsProduct(hi, n);
    DivBounds(t, n as real, lo, hi);
  }

  /** The mean of a window lies between any bounds of its samples. */
  lemma MeanBounds(w: Surface, lo: real, hi: real)
    requires Size(w) > 0 && Within(w, lo, hi)
    ensures lo <= Mean(w) <= hi
  {
    TotalBounds(w, lo, hi);
    AverageBounds(Total(w), Size(w), lo, hi);
  }

  /** `[int(grid.mean()) for grid in image_squares]`; None where a window is
      empty, since `int(nan)` raises. */
  function ObjectDistances(windows: seq<Surface>): (r: Option<seq<int>>)
    ensures r.Some? <==> forall i :: 0 <= i < |windows| ==> Size(windows[i]) > 0
    ensures r.Some? ==> (|r.value| == |windows| &&
      forall i :: 0 <= i < |windows| ==> r.value[i] == Trunc(Mean(windows[i])))
  {
    if forall i :: 0 <= i < |windows| ==> Size(windows[i]) > 0 then
      Some(seq(|windows|, i requires 0 <= i < |windows| => Trunc(Mean(windows[i]))))
    else None
  }

  /** The distance of one object: the truncated mean of its window. */
  function BoxDistance(image: Surface, b: Box, squareSize: int): int
    requires Size(BoxWindow(image, b, squareSize)) > 0
  {
    Trunc(Mean(BoxWindow(image, b, squareSize)))
  }

  // ------------------------------------------------- surface minimum, maximum

  /** All samples of a surface, row by row. */
  function Flatten(d: Surface): seq<real>
  {
    if d == [] then [] else Flatten(d[..|d| - 1]) + d[|d| - 1]
  }

  lemma {:induction false} InFlatten(d: Surface, i: int, j: int)
    requires 0 <= i < |d| && 0 <= j < |d[i]|
    ensures d[i][j] in Flatten(d)
  {
    if i < |d| - 1 {
      assert d[..|d| - 1][i] == d[i];
      InFlatten(d[..|d| - 1], i, j);
    }
  }

  lemma {:induction false} FlattenWithin(d: Surface, lo: real, hi: real)
    requires Within(d, lo, hi)
    ensures forall x :: x in Flatten(d) ==> lo <= x <= hi
  {
    if d != [] {
      WithinSplit(d, lo, hi);
      FlattenWithin(d[..|d| - 1], lo, hi);
    }
  }

  function SeqMin(s: seq<real>): (m: real)
    requires |s| > 0
    ensures m in s && forall x :: x in s ==> m <= x
  {
    if |s| == 1 then s[0]
    else
      var rest := SeqMin(s[1..]);
      assert s == [s[0]] + s[1..];
      if s[0] <= rest then s[0] else rest
  }

  function SeqMax(s: seq<real>): (m: real)
    requires |s| > 0
    ensures m in s && forall x :: x in s ==> x <= m
  {
    if |s| == 1 then s[0]
    else
      var rest := SeqMax(s[1..]);
      assert s == [s[0]] + s[1..];
      if s[0] >= rest then s[0] else rest
  }

  /** `depth_img.min()`. */
  function SurfaceMin(d: Surface): real
    requires Flatten(d) != []
  {
    SeqMin(Flatten(d))
  }

  /** `depth_img.max()`. */
  function SurfaceMax(d: Surface): real
    requires Flatten(d) != []
  {
    SeqMax(Flatten(d))
  }

  /** The minimum and the maximum are samples of the surface, and every sample
      lies between them. */
  lemma SurfaceBounds(d: Surface)
    requires Flatten(d) != []
    ensures SurfaceMin(d) in Flatten(d) && SurfaceMax(d) in Flatten(d)
    ensures forall i, j :: 0 <= i < |d| && 0 <= j < |d[i]| ==> SurfaceMin(d) <= d[i][j] <= SurfaceMax(d)
  {
    forall i, j | 0 <= i < |d| && 0 <= j < |d[i]|
      ensures SurfaceMin(d) <= d[i][j] <= SurfaceMax(d)
    {
      InFlatten(d, i, j);
    }
  }

  /** Every sample of a window is a sample of the surface it was cut from. */
  lemma CenterAreaSample(image: Surface, c: Point, s: int, i: int, j: int)
    requires var w := CenterArea(image, c, s); 0 <= i < |w| && 0 <= j < |w[i]|
    ensures var r := Bound(c.row - s, |image|) + i;
      r < |image| && Bound(c.col - s, |image[r]|) + j < |image[r]| &&
      CenterArea(image, c, s)[i][j] == image[r][Bound(c.col - s, |image[r]|) + j]
  {
    CenterAreaRow(image, c, s, i);
    SliceAt(image[Bound(c.row - s, |image|) + i], c.col - s, c.col + s, j);
  }

  /** Row i of a window is the slice of the surface row it was cut from. */
  lemma CenterAreaRow(image: Surface, c: Point, s: int, i: int)
    requires 0 <= i < |CenterArea(image, c, s)|
    ensures Bound(c.row - s, |image|) + i < |image|
    ensures CenterArea(image, c, s)[i] == Slice(image[Bound(c.row - s, |image|) + i], c.col - s, c.col + s)
  {
  }

  function NonEmptyRow(w: Surface): (i: nat)
    requires Size(w) > 0
    ensures i < |w| && |w[i]| > 0
  {
    if |w[|w| - 1]| > 0 then |w| - 1
    else
      var i := NonEmptyRow(w[..|w| - 1]);
      assert w[..|w| - 1][i] == w[i];
      i
  }

  /** A non-empty window shows that the surface has a sample. */
  lemma SampledSurfaceNotEmpty(image: Surface, c: Point, s: int)
    requires Size(CenterArea(image, c, s)) > 0
    ensures Flatten(image) != []
  {
    var i := NonEmptyRow(CenterArea(image, c, s));
    CenterAreaSample(image, c, s, i, 0);
    var r := Bound(c.row - s, |image|) + i;
    InFlatten(image, r, Bound(c.col - s, |image[r]|));
  }

  /** A window of a surface whose samples lie in [lo, hi] has its samples there too. */
  lemma CenterAreaWithin(image: Surface, c: Point, s: int, lo: real, hi: real)
    requires Within(image, lo, hi)
    ensures Within(CenterArea(image, c, s), lo, hi)
  {
    var w := CenterArea(image, c, s);
    forall i, j | 0 <= i < |w| && 0 <= j < |w[i]|
      ensures lo <= w[i][j] <= hi
    {
      CenterAreaSample(image, c, s, i, j);
    }
  }

  /** Every window lies within the surface's own minimum and maximum. */
  lemma CenterAreaWithinSurface(image: Surface, c: Point, s: int)
    requires Flatten(image) != []
    ensures Within(CenterArea(image, c, s), SurfaceMin(image), SurfaceMax(image))
  {
    var w := CenterArea(image, c, s);
    var lo, hi := SurfaceMin(image), SurfaceMax(image);
    SurfaceBounds(image);
    forall i, j | 0 <= i < |w| && 0 <= j < |w[i]|
      ensures lo <= w[i][j] <= hi
    {
      CenterAreaSample(image, c, s, i, j);
    }
  }

  // ------------------------------------------------------------ stage bins

  /** `object_dist >= step_size * j + min_dist and object_dist <= step_size * (j + 1) + min_dist`. */
  predicate InBin(d: real, lo: real, step: real, j: int)
  {
    step * (j as real) + lo <= d <= step * ((j + 1) as real) + lo
  }

  /** The first bin from j on, below `stages`, that holds d. */
  function FirstBinFrom(d: real, lo: real, step: real, stages: int, j: nat): (r: Option<nat>)
    decreases stages - j
    ensures r.Some? ==> (j <= r.value < stages && InBin(d, lo, step, r.value) &&
      forall k :: j <= k < r.value ==> !InBin(d, lo, step, k))
    ensures r.None? ==> forall k :: j <= k < stages ==> !InBin(d, lo, step, k)
  {
    if j >= stages then None
    else if InBin(d, lo, step, j) then Some(j)
    else FirstBinFrom(d, lo, step, stages, j + 1)
  }

  /** The smallest bin index in [0, stages) that holds d, if any. */
  function FirstBin(d: real, lo: real, step: real, stages: int): Option<nat>
  {
    FirstBinFrom(d, lo, step, stages, 0)
  }

  /** `(max_dist - min_dist) / self.stages`; with no stages the bins are never consulted. */
  function StepSize(lo: real, hi: real, stages: int): real
  {
    if stages == 0 then 0.0 else (hi - lo) / (stages as real)
  }

  /** The ids the nested loop appends for ds: `stages - 1 - j` for the first bin j
      holding a distance, and nothing for a distance no bin holds. */
  function StageIds(ds: seq<int>, lo: real, step: real, stages: int): (ids: seq<int>)
    ensures |ids| <= |ds|
    ensures forall k :: 0 <= k < |ids| ==> 0 <= ids[k] < stages
  {
    if ds == [] then []
    else
      var prior := StageIds(ds[..|ds| - 1], lo, step, stages);
      match FirstBin((ds[|ds| - 1] as real), lo, step, stages)
      case Some(j) => prior + [stages - 1 - j]
      case None => prior
  }

  lemma StepNext(step: real, j: int)
    ensures step * ((j + 1) as real) == step * (j as real) + step
  {
  }

  lemma DivMul(x: real, c: real)
    requires c != 0.0
    ensures c * (x / c) == x
  {
  }

  /** If d lies at or above the lower edge of bin j and below the upper edge of
      the last bin, then one of the bins j, ..., stages - 1 holds it. */
  lemma {:induction false} BinFrom(d: real, lo: real, step: real, stages: int, j: nat) returns (k: int)
    requires j < stages && step * (j as real) + lo <= d <= step * (stages as real) + lo
    ensures j <= k < stages && InBin(d, lo, step, k)
    decreases stages - j
  {
    StepNext(step, j);
    if d <= step * ((j + 1) as real) + lo {
      k := j;
    } else {
      k := BinFrom(d, lo, step, stages, j + 1);
    }
  }

  /** Some bin j in [0, stages) holds d: the bins of width step tile [lo, hi]. */
  lemma BinCoversAt(d: real, lo: real, hi: real, stages: int) returns (j: int)
    requires stages >= 1 && lo <= d <= hi
    ensures 0 <= j < stages && InBin(d, lo, StepSize(lo, hi, stages), j)
  {
    var step := StepSize(lo, hi, stages);
    DivMul(hi - lo, stages as real);
    assert step * (0 as real) == 0.0;
    j := BinFrom(d, lo, step, stages, 0);
  }

  /** With at least one stage and step = (hi - lo) / stages, every d in [lo, hi]
      lies in some bin. */
  lemma BinCovers(d: real, lo: real, hi: real, stages: int)
    requires stages >= 1 && lo <= d <= hi
    ensures FirstBin(d, lo, StepSize(lo, hi, stages), stages).Some?
  {
    var j := BinCoversAt(d, lo, hi, stages);
  }

  /** A smaller distance never lands in a later bin than a larger one. */
  lemma {:induction false} FirstBinMonotone(d1: real, d2: real, lo: real, step: real, stages: int, j: nat)
    requires d2 <= d1 && step * (j as real) + lo <= d2
    requires FirstBinFrom(d1, lo, step, stages, j).Some?
    ensures FirstBinFrom(d2, lo, step, stages, j).Some?
    ensures FirstBinFrom(d2, lo, step, stages, j).value <= FirstBinFrom(d1, lo, step, stages, j).value
    decreases stages - j
  {
    if !InBin(d1, lo, step, j) && !InBin(d2, lo, step, j) {
      FirstBinMonotone(d1, d2, lo, step, stages, j + 1);
    }
  }

  /** When every distance lies in some bin, one id is emitted per distance, in order. */
  lemma {:induction false} StageIdsComplete(ds: seq<int>, lo: real, step: real, stages: int)
    requires forall i :: 0 <= i < |ds| ==> FirstBin((ds[i] as real), lo, step, stages).Some?
    ensures |StageIds(ds, lo, step, stages)| == |ds|
    ensures forall i :: 0 <= i < |ds| ==>
      StageIds(ds, lo, step, stages)[i] == stages - 1 - FirstBin((ds[i] as real), lo, step, stages).value
  {
    if ds != [] {
      StageIdsComplete(ds[..|ds| - 1], lo, step, stages);
    }
  }

  /** Distances in [lo, hi]: exactly one id per distance, and for distances that
      never increase, ids that never decrease. */
  lemma StageIdsInRange(ds: seq<int>, lo: real, hi: real, stages: int)
    requires stages >= 1
    requires forall i :: 0 <= i < |ds| ==> lo <= (ds[i] as real) <= hi
    ensures |StageIds(ds, lo, StepSize(lo, hi, stages), stages)| == |ds|
    ensures forall i :: 0 <= i < |ds| ==>
      FirstBin((ds[i] as real), lo, StepSize(lo, hi, stages), stages).Some? &&
      StageIds(ds, lo, StepSize(lo, hi, stages), stages)[i] ==
        stages - 1 - FirstBin((ds[i] as real), lo, StepSize(lo, hi, stages), stages).value
    ensures (forall a, b :: 0 <= a < b < |ds| ==> ds[a] >= ds[b]) ==>
      var ids := StageIds(ds, lo, StepSize(lo, hi, stages), stages);
      forall a, b :: 0 <= a < b < |ds| ==> ids[a] <= ids[b]
  {
    var step := StepSize(lo, hi, stages);
    forall i | 0 <= i < |ds| ensures FirstBin((ds[i] as real), lo, step, stages).Some? {
      BinCovers((ds[i] as real), lo, hi, stages);
    }
    StageIdsComplete(ds, lo, step, stages);
    if forall a, b :: 0 <= a < b < |ds| ==> ds[a] >= ds[b] {
      forall a, b | 0 <= a < b < |ds|
        ensures StageIds(ds, lo, step, stages)[a] <= StageIds(ds, lo, step, stages)[b]
      {
        FirstBinMonotone((ds[a] as real), (ds[b] as real), lo, step, stages, 0);
      }
    }
  }

  // ---------------------------------------------------------- the pipeline

  /** What `post_process` raises before it changes anything. */
  datatype Failure =
    | EmptyWindow       // `int(nan)` on the mean of an empty window: ValueError
    | IndexOutOfRange   // fewer scores or classes than boxes: numpy IndexError

  datatype Outcome =
    | NoObjects
    | Failed(failure: Failure)
    | Reordered(boxes: seq<Box>, scores: seq<int>, classes: seq<int>, distanceIds: seq<int>)

  /** Centres, windows and truncated means of the boxes, in input order; None when
      some window is empty. */
  function BoxDistances(depth: Surface, boxes: seq<Box>, gridSize: int): (r: Option<seq<int>>)
    ensures r.Some? <==> forall i :: 0 <= i < |boxes| ==> Size(BoxWindow(depth, boxes[i], gridSize)) > 0
    ensures r.Some? ==> (|r.value| == |boxes| &&
      forall i :: 0 <= i < |boxes| ==> r.value[i] == BoxDistance(depth, boxes[i], gridSize))
  {
    var windows := CenterAreas(depth, CenterPoints(boxes), gridSize);
    assert forall i :: 0 <= i < |boxes| ==> windows[i] == BoxWindow(depth, boxes[i], gridSize);
    ObjectDistances(windows)
  }

  /** The stage ids of the distances ds read from the largest down. */
  function RankedIds(ds: seq<int>, lo: real, hi: real, stages: int): seq<int>
  {
    StageIds(Permute(ds, DescendingOrder(ds)), lo, StepSize(lo, hi, stages), stages)
  }

  /** Sorting and binning once the distances ds of the boxes are known. */
  function Rank(boxes: seq<Box>, scores: seq<real>, classes: seq<int>, ds: seq<int>,
                lo: real, hi: real, stages: int): Outcome
    requires |ds| == |boxes| <= |scores| && |boxes| <= |classes|
  {
    var order := DescendingOrder(ds);
    Reordered(Permute(boxes, order), TruncAll(Permute(scores, order)), Permute(classes, order),
              RankedIds(ds, lo, hi, stages))
  }

  /** The boxes, scores, classes and stage ids `post_process` leaves behind. */
  function Classify(depth: Surface, boxes: seq<Box>, scores: seq<real>, classes: seq<int>,
                    gridSize: int, stages: int): Outcome
  {
    if |boxes| == 0 then NoObjects
    else
      match BoxDistances(depth, boxes, gridSize)
      case None => Failed(EmptyWindow)
      case Some(ds) =>
        if |scores| < |boxes| || |classes| < |boxes| then Failed(IndexOutOfRange)
        else
          SampledSurfaceNotEmpty(depth, CenterPoint(boxes[0]), gridSize);
          Rank(boxes, scores, classes, ds, SurfaceMin(depth), SurfaceMax(depth), stages)
  }

  /** With no boxes the detections are left as they are. */
  lemma ClassifyNoObjects(depth: Surface, boxes: seq<Box>, scores: seq<real>, classes: seq<int>,
                          gridSize: int, stages: int)
    ensures Classify(depth, boxes, scores, classes, gridSize, stages).NoObjects? <==> |boxes| == 0
  {
  }

  /** The two ways the step fails, and exactly when. */
  lemma ClassifyFailures(depth: Surface, boxes: seq<Box>, scores: seq<real>, classes: seq<int>,
                         gridSize: int, stages: int)
    requires |boxes| > 0
    ensures var r := Classify(depth, boxes, scores, classes, gridSize, stages);
      (r == Failed(EmptyWindow) <==>
        exists i :: 0 <= i < |boxes| && Size(BoxWindow(depth, boxes[i], gridSize)) == 0) &&
      (r == Failed(IndexOutOfRange) <==>
        (forall i :: 0 <= i < |boxes| ==> Size(BoxWindow(depth, boxes[i], gridSize)) > 0) &&
        (|scores| < |boxes| || |classes| < |boxes|))
  {
  }

  /** The result of a run that gets past both failures. */
  lemma ClassifyRanks(depth: Surface, boxes: seq<Box>, scores: seq<real>, classes: seq<int>,
                      gridSize: int, stages: int)
    requires Classify(depth, boxes, scores, classes, gridSize, stages).Reordered?
    ensures |boxes| > 0 && |boxes| <= |scores| && |boxes| <= |classes|
    ensures BoxDistances(depth, boxes, gridSize).Some? && Flatten(depth) != []
    ensures Classify(depth, boxes, scores, classes, gridSize, stages) ==
      Rank(boxes, scores, classes, BoxDistances(depth, boxes, gridSize).value,
           SurfaceMin(depth), SurfaceMax(depth), stages)
  {
    SampledSurfaceNotEmpty(depth, CenterPoint(boxes[0]), gridSize);
  }

  /** The outcome of a run that gets past both failures, spelt out. */
  lemma ClassifyReorders(depth: Surface, boxes: seq<Box>, scores: seq<real>, classes: seq<int>,
                         gridSize: int, stages: int)
    requires |boxes| > 0 && |boxes| <= |scores| && |boxes| <= |classes|
    requires BoxDistances(depth, boxes, gridSize).Some?
    ensures Flatten(depth) != [] && |BoxDistances(depth, boxes, gridSize).value| == |boxes|
    ensures var ds := BoxDistances(depth, boxes, gridSize).value;
      var p := DescendingOrder(ds);
      var lo, hi := SurfaceMin(depth), SurfaceMax(depth);
      var r := Classify(depth, boxes, scores, classes, gridSize, stages);
      r.Reordered? &&
      r.boxes == Permute(boxes, p) && r.scores == TruncAll(Permute(scores, p)) &&
      r.classes == Permute(classes, p) && r.distanceIds == RankedIds(ds, lo, hi, stages)
  {
    SampledSurfaceNotEmpty(depth, CenterPoint(boxes[0]), gridSize);
  }

  /** The stage ids of a run that gets past both failures. */
  lemma ClassifyIds(depth: Surface, boxes: seq<Box>, scores: seq<real>, classes: seq<int>,
                    gridSize: int, stages: int)
    requires |boxes| > 0 && |boxes| <= |scores| && |boxes| <= |classes|
    requires BoxDistances(depth, boxes, gridSize).Some?
    ensures Flatten(depth) != []
    ensures var r := Classify(depth, boxes, scores, classes, gridSize, stages);
      r.Reordered? &&
      r.distanceIds == RankedIds(BoxDistances(depth, boxes, gridSize).value, SurfaceMin(depth), SurfaceMax(depth), stages)
  {
    SampledSurfaceNotEmpty(depth, CenterPoint(boxes[0]), gridSize);
  }

  lemma PermuteFirst<T>(xs: seq<T>, p: seq<nat>, n: nat)
    requires Indexes(p, n) && n <= |xs|
    ensures Indexes(p, |xs|) && Indexes(p, |xs[..n]|)
    ensures Permute(xs, p) == Permute(xs[..n], p)
  {
  }

  lemma TruncAllPermute(xs: seq<real>, p: seq<nat>)
    requires Indexes(p, |xs|)
    ensures Indexes(p, |TruncAll(xs)|)
    ensures TruncAll(Permute(xs, p)) == Permute(TruncAll(xs), p)
  {
  }

  /** One permutation reorders boxes, scores and classes alike; scores are truncated
      and no detection is lost or duplicated. */
  lemma RankPermutes(boxes: seq<Box>, scores: seq<real>, classes: seq<int>, ds: seq<int>,
                     lo: real, hi: real, stages: int)
    requires |ds| == |boxes| <= |scores| && |boxes| <= |classes|
    ensures var r := Rank(boxes, scores, classes, ds, lo, hi, stages);
      var n := |boxes|;
      |r.boxes| == n && |r.scores| == n && |r.classes| == n &&
      multiset(r.boxes) == multiset(boxes) &&
      multiset(r.scores) == multiset(TruncAll(scores[..n])) &&
      multiset(r.classes) == multiset(classes[..n]) &&
      exists p :: IsPermutation(p, n) && n == |p| && Indexes(p, n) &&
        r.boxes == Permute(boxes, p) &&
        r.classes == Permute(classes[..n], p) &&
        r.scores == TruncAll(Permute(scores[..n], p))
  {
    var n := |boxes|;
    var p := DescendingOrder(ds);
    PermutationIndexes(p, n);
    var r := Rank(boxes, scores, classes, ds, lo, hi, stages);
    assert r.boxes == Permute(boxes, p);
    assert r.classes == Permute(classes, p);
    assert r.scores == TruncAll(Permute(scores, p));
    PermuteFirst(classes, p, n);
    PermuteFirst(scores, p, n);
    var s := scores[..n];
    TruncAllPermute(s, p);
    PermutePrefixMultiset(boxes, p, n);
    PermutePrefixMultiset(classes[..n], p, n);
    PermutePrefixMultiset(TruncAll(s), p, n);
    assert boxes[..n] == boxes;
    assert classes[..n][..n] == classes[..n];
    assert TruncAll(s)[..n] == TruncAll(s);
  }

  /** The same, for the whole step. */
  lemma ClassifyPermutes(depth: Surface, boxes: seq<Box>, scores: seq<real>, classes: seq<int>,
                         gridSize: int, stages: int)
    requires Classify(depth, boxes, scores, classes, gridSize, stages).Reordered?
    ensures var r := Classify(depth, boxes, scores, classes, gridSize, stages);
      var n := |boxes|;
      n <= |scores| && n <= |classes| &&
      |r.boxes| == n && |r.scores| == n && |r.classes| == n &&
      multiset(r.boxes) == multiset(boxes) &&
      multiset(r.scores) == multiset(TruncAll(scores[..n])) &&
      multiset(r.classes) == multiset(classes[..n]) &&
      exists p :: IsPermutation(p, n) && n == |p| && Indexes(p, n) &&
        r.boxes == Permute(boxes, p) &&
        r.classes == Permute(classes[..n], p) &&
        r.scores == TruncAll(Permute(scores[..n], p))
  {
    ClassifyRanks(depth, boxes, scores, classes, gridSize, stages);
    RankPermutes(boxes, scores, classes, BoxDistances(depth, boxes, gridSize).value,
                 SurfaceMin(depth), SurfaceMax(depth), stages);
  }

  /** The reordered objects come nearest first: their distances never increase. */
  lemma ClassifyNearestFirst(depth: Surface, boxes: seq<Box>, scores: seq<real>, classes: seq<int>,
                             gridSize: int, stages: int)
    requires Classify(depth, boxes, scores, classes, gridSize, stages).Reordered?
    ensures var r := Classify(depth, boxes, scores, classes, gridSize, stages);
      |r.boxes| == |boxes| &&
      (forall i :: 0 <= i < |r.boxes| ==> Size(BoxWindow(depth, r.boxes[i], gridSize)) > 0) &&
      forall i, j :: 0 <= i < j < |r.boxes| ==>
        BoxDistance(depth, r.boxes[i], gridSize) >= BoxDistance(depth, r.boxes[j], gridSize)
  {
    ClassifyRanks(depth, boxes, scores, classes, gridSize, stages);
    var r := Classify(depth, boxes, scores, classes, gridSize, stages);
    var p := DescendingOrder(BoxDistances(depth, boxes, gridSize).value);
    assert r.boxes == Permute(boxes, p);
    SortedByDistance(depth, boxes, gridSize);
  }

  /** Boxes read along the descending order of their distances have non-increasing distances. */
  lemma SortedByDistance(depth: Surface, boxes: seq<Box>, gridSize: int)
    requires BoxDistances(depth, boxes, gridSize).Some?
    ensures var sorted := Permute(boxes, DescendingOrder(BoxDistances(depth, boxes, gridSize).value));
      |sorted| == |boxes| &&
      (forall i :: 0 <= i < |sorted| ==> Size(BoxWindow(depth, sorted[i], gridSize)) > 0) &&
      forall i, j :: 0 <= i < j < |sorted| ==>
        BoxDistance(depth, sorted[i], gridSize) >= BoxDistance(depth, sorted[j], gridSize)
  {
    var ds := BoxDistances(depth, boxes, gridSize).value;
    var p := DescendingOrder(ds);
    PermutedDistances(depth, boxes, gridSize, p);
    assert DescendingAlong(ds, p);
  }

  /** Each emitted stage id is in [0, stages - 1], and there is at most one per object. */
  lemma ClassifyStageRange(depth: Surface, boxes: seq<Box>, scores: seq<real>, classes: seq<int>,
                           gridSize: int, stages: int)
    requires Classify(depth, boxes, scores, classes, gridSize, stages).Reordered?
    ensures var r := Classify(depth, boxes, scores, classes, gridSize, stages);
      |r.distanceIds| <= |boxes| &&
      forall k :: 0 <= k < |r.distanceIds| ==> 0 <= r.distanceIds[k] <= stages - 1
  {
    ClassifyRanks(depth, boxes, scores, classes, gridSize, stages);
  }

  /** With every distance in [lo, hi] and at least one stage, one id per distance,
      in the order of DescendingOrder. */
  lemma RankedIdsAllBinned(ds: seq<int>, lo: real, hi: real, stages: int)
    requires stages >= 1 && forall i :: 0 <= i < |ds| ==> lo <= ds[i] as real <= hi
    ensures var ids := RankedIds(ds, lo, hi, stages);
      var p := DescendingOrder(ds);
      |ids| == |ds| &&
      forall k :: 0 <= k < |ds| ==>
        FirstBin(ds[p[k]] as real, lo, StepSize(lo, hi, stages), stages).Some? &&
        ids[k] == stages - 1 - FirstBin(ds[p[k]] as real, lo, StepSize(lo, hi, stages), stages).value
  {
    var sorted := Permute(ds, DescendingOrder(ds));
    StageIdsInRange(sorted, lo, hi, stages);
  }

  /** Under the same conditions the ids never decrease. */
  lemma RankedIdsAscend(ds: seq<int>, lo: real, hi: real, stages: int)
    requires stages >= 1 && forall i :: 0 <= i < |ds| ==> lo <= ds[i] as real <= hi
    ensures |RankedIds(ds, lo, hi, stages)| == |ds| && NonDecreasing(RankedIds(ds, lo, hi, stages))
  {
    var sorted := Permute(ds, DescendingOrder(ds));
    DescendingOrderSorts(ds);
    StageIdsInRange(sorted, lo, hi, stages);
  }

  /** The distances of the objects all lie in the surface's [min, max]. */
  predicate DistancesInRange(depth: Surface, boxes: seq<Box>, gridSize: int)
  {
    && Flatten(depth) != []
    && (forall i :: 0 <= i < |boxes| ==> Size(BoxWindow(depth, boxes[i], gridSize)) > 0)
    && forall i :: 0 <= i < |boxes| ==>
         SurfaceMin(depth) <= (BoxDistance(depth, boxes[i], gridSize) as real) <= SurfaceMax(depth)
  }

  lemma BinnableDistances(depth: Surface, boxes: seq<Box>, gridSize: int)
    requires DistancesInRange(depth, boxes, gridSize)
    ensures BoxDistances(depth, boxes, gridSize).Some?
    ensures var ds := BoxDistances(depth, boxes, gridSize).value;
      forall i :: 0 <= i < |ds| ==> SurfaceMin(depth) <= ds[i] as real <= SurfaceMax(depth)
  {
  }

  /** Reordering the boxes by p reorders their distances alike. */
  lemma PermutedDistances(depth: Surface, boxes: seq<Box>, gridSize: int, p: seq<nat>)
    requires BoxDistances(depth, boxes, gridSize).Some? && Indexes(p, |boxes|)
    ensures var ds := BoxDistances(depth, boxes, gridSize).value;
      var sorted := Permute(boxes, p);
      forall k :: 0 <= k < |p| ==>
        Size(BoxWindow(depth, sorted[k], gridSize)) > 0 &&
        p[k] < |ds| && BoxDistance(depth, sorted[k], gridSize) == ds[p[k]]
  {
  }

  /** Each entry of s is at most every later one. */
  predicate NonDecreasing(s: seq<int>)
  {
    forall a, b :: 0 <= a < b < |s| ==> s[a] <= s[b]
  }

  /** The ids of the boxes sorted by distance, each that of its box's distance. */
  lemma BinnedAlong(depth: Surface, boxes: seq<Box>, gridSize: int, stages: int)
    requires stages >= 1 && DistancesInRange(depth, boxes, gridSize)
    ensures BoxDistances(depth, boxes, gridSize).Some?
    ensures var ds := BoxDistances(depth, boxes, gridSize).value;
      var lo, hi := SurfaceMin(depth), SurfaceMax(depth);
      var sorted := Permute(boxes, DescendingOrder(ds));
      var ids := RankedIds(ds, lo, hi, stages);
      |ids| == |sorted| == |boxes| &&
      forall k :: 0 <= k < |sorted| ==>
        Size(BoxWindow(depth, sorted[k], gridSize)) > 0 &&
        FirstBin(BoxDistance(depth, sorted[k], gridSize) as real, lo, StepSize(lo, hi, stages), stages).Some? &&
        ids[k] == stages - 1 -
          FirstBin(BoxDistance(depth, sorted[k], gridSize) as real, lo, StepSize(lo, hi, stages), stages).value
  {
    BinnableDistances(depth, boxes, gridSize);
    var ds := BoxDistances(depth, boxes, gridSize).value;
    RankedIdsAllBinned(ds, SurfaceMin(depth), SurfaceMax(depth), stages);
    PermutedDistances(depth, boxes, gridSize, DescendingOrder(ds));
  }

  /** When every distance lies in the surface's [min, max] and there is a stage,
      every object gets its id, aligned with the reordered boxes: the id of the
      first bin holding its distance. */
  lemma ClassifyAllBinned(depth: Surface, boxes: seq<Box>, scores: seq<real>, classes: seq<int>,
                          gridSize: int, stages: int)
    requires stages >= 1 && |boxes| > 0
    requires |scores| >= |boxes| && |classes| >= |boxes|
    requires DistancesInRange(depth, boxes, gridSize)
    ensures var r := Classify(depth, boxes, scores, classes, gridSize, stages);
      var lo, hi := SurfaceMin(depth), SurfaceMax(depth);
      r.Reordered? && |r.distanceIds| == |r.boxes| == |boxes| &&
      forall k :: 0 <= k < |boxes| ==>
        Size(BoxWindow(depth, r.boxes[k], gridSize)) > 0 &&
        FirstBin(BoxDistance(depth, r.boxes[k], gridSize) as real, lo, StepSize(lo, hi, stages), stages).Some? &&
        r.distanceIds[k] == stages - 1 -
          FirstBin(BoxDistance(depth, r.boxes[k], gridSize) as real, lo, StepSize(lo, hi, stages), stages).value
  {
    BinnableDistances(depth, boxes, gridSize);
    ClassifyReorders(depth, boxes, scores, classes, gridSize, stages);
    BinnedAlong(depth, boxes, gridSize, stages);
  }

  /** Under the same conditions the ids never decrease along the output: nearer
      objects come first and get the larger stage ids. */
  lemma ClassifyIdsAscend(depth: Surface, boxes: seq<Box>, scores: seq<real>, classes: seq<int>,
                          gridSize: int, stages: int)
    requires stages >= 1 && |boxes| > 0
    requires |scores| >= |boxes| && |classes| >= |boxes|
    requires DistancesInRange(depth, boxes, gridSize)
    ensures var r := Classify(depth, boxes, scores, classes, gridSize, stages);
      r.Reordered? && |r.distanceIds| == |boxes| && NonDecreasing(r.distanceIds)
  {
    DistancesAscend(depth, boxes, gridSize, stages);
    ClassifyIds(depth, boxes, scores, classes, gridSize, stages);
  }

  /** The ranked ids of distances in the surface's [min, max] never decrease. */
  lemma DistancesAscend(depth: Surface, boxes: seq<Box>, gridSize: int, stages: int)
    requires stages >= 1 && DistancesInRange(depth, boxes, gridSize)
    ensures BoxDistances(depth, boxes, gridSize).Some?
    ensures var ids := RankedIds(BoxDistances(depth, boxes, gridSize).value, SurfaceMin(depth), SurfaceMax(depth), stages);
      |ids| == |boxes| && NonDecreasing(ids)
  {
    BinnableDistances(depth, boxes, gridSize);
    RankedIdsAscend(BoxDistances(depth, boxes, gridSize).value, SurfaceMin(depth), SurfaceMax(depth), stages);
  }

  /** Every sample of d equals v. */
  predicate Flat(d: Surface, v: real)
  {
    Within(d, v, v)
  }

  /** On a flat surface every object's distance is the truncated surface value. */
  lemma FlatDistances(depth: Surface, boxes: seq<Box>, gridSize: int, v: real)
    requires Flat(depth, v) && BoxDistances(depth, boxes, gridSize).Some?
    ensures var ds := BoxDistances(depth, boxes, gridSize).value;
      forall i :: 0 <= i < |ds| ==> ds[i] == Trunc(v)
  {
    var ds := BoxDistances(depth, boxes, gridSize).value;
    forall i | 0 <= i < |ds|
      ensures ds[i] == Trunc(v)
    {
      var w := BoxWindow(depth, boxes[i], gridSize);
      CenterAreaWithin(depth, CenterPoint(boxes[i]), gridSize, v, v);
      MeanBounds(w, v, v);
    }
  }

  /** Bins of width zero hold only lo itself. */
  lemma {:induction false} ZeroStepMisses(d: real, lo: real, stages: int, j: nat)
    requires d != lo
    ensures FirstBinFrom(d, lo, 0.0, stages, j).None?
    decreases stages - j
  {
    if j < stages {
      assert 0.0 * (j as real) == 0.0;
      assert !InBin(d, lo, 0.0, j);
      ZeroStepMisses(d, lo, stages, j + 1);
    }
  }

  /** Distances that no bin holds contribute no ids. */
  lemma {:induction false} StageIdsNone(ds: seq<int>, lo: real, step: real, stages: int)
    requires forall i :: 0 <= i < |ds| ==> FirstBin((ds[i] as real), lo, step, stages).None?
    ensures StageIds(ds, lo, step, stages) == []
  {
    if ds != [] {
      StageIdsNone(ds[..|ds| - 1], lo, step, stages);
    }
  }

  /** Equal distances c in the zero-width bins at v: every distance in the
      nearest stage when c is v, and no ids at all when it is not. */
  lemma StageIdsConstant(ds: seq<int>, v: real, stages: int, c: int)
    requires forall i :: 0 <= i < |ds| ==> ds[i] == c
    ensures var ids := StageIds(ds, v, 0.0, stages);
      ((c as real) == v && stages >= 1 ==>
        |ids| == |ds| && forall k :: 0 <= k < |ids| ==> ids[k] == stages - 1) &&
      ((c as real) != v ==> ids == [])
  {
    if (c as real) == v && stages >= 1 {
      assert FirstBin(v, v, 0.0, stages) == Some(0);
      StageIdsComplete(ds, v, 0.0, stages);
    } else if (c as real) != v {
      ZeroStepMisses(c as real, v, stages, 0);
      StageIdsNone(ds, v, 0.0, stages);
    }
  }

  /** The same for the distances read from the largest down, when min and max are both v. */
  lemma RankedIdsConstant(ds: seq<int>, v: real, stages: int, c: int)
    requires forall i :: 0 <= i < |ds| ==> ds[i] == c
    ensures var ids := RankedIds(ds, v, v, stages);
      ((c as real) == v && stages >= 1 ==>
        |ids| == |ds| && forall k :: 0 <= k < |ids| ==> ids[k] == stages - 1) &&
      ((c as real) != v ==> ids == [])
  {
    var sorted := Permute(ds, DescendingOrder(ds));
    assert StepSize(v, v, stages) == 0.0;
    assert forall i :: 0 <= i < |sorted| ==> sorted[i] == c;
    StageIdsConstant(sorted, v, stages, c);
  }

  /** On a flat surface whose value is a whole number every object lands in the
      nearest stage, stages - 1, with a step of zero. */
  lemma ClassifyFlatSurface(depth: Surface, boxes: seq<Box>, scores: seq<real>, classes: seq<int>,
                            gridSize: int, stages: int, v: real)
    requires Flat(depth, v) && v == (Trunc(v) as real) && stages >= 1
    requires Classify(depth, boxes, scores, classes, gridSize, stages).Reordered?
    ensures var r := Classify(depth, boxes, scores, classes, gridSize, stages);
      |r.distanceIds| == |boxes| &&
      forall k :: 0 <= k < |boxes| ==> r.distanceIds[k] == stages - 1
  {
    ClassifyRanks(depth, boxes, scores, classes, gridSize, stages);
    FlattenWithin(depth, v, v);
    SurfaceBounds(depth);
    FlatDistances(depth, boxes, gridSize, v);
    RankedIdsConstant(BoxDistances(depth, boxes, gridSize).value, v, stages, Trunc(v));
  }

  /** On a flat surface whose value is not a whole number (0.5, say) the truncated
      distance misses the single point min = max, so no object receives a stage
      id and `distance_ids` is empty while the boxes are kept. */
  lemma ClassifyFractionalFlatSurface(depth: Surface, boxes: seq<Box>, scores: seq<real>, classes: seq<int>,
                                      gridSize: int, stages: int, v: real)
    requires Flat(depth, v) && v != (Trunc(v) as real)
    requires Classify(depth, boxes, scores, classes, gridSize, stages).Reordered?
    ensures Classify(depth, boxes, scores, classes, gridSize, stages).distanceIds == []
  {
    ClassifyRanks(depth, boxes, scores, classes, gridSize, stages);
    FlattenWithin(depth, v, v);
    SurfaceBounds(depth);
    FlatDistances(depth, boxes, gridSize, v);
    RankedIdsConstant(BoxDistances(depth, boxes, gridSize).value, v, stages, Trunc(v));
  }

  // ------------------------------------------------------------- examples

  /** The centre of the box [10, 20, 100, 200] is row 110, column 55. */
  lemma CenterOfExampleBox()
    ensures CenterPoints([Box(10, 20, 100, 200)]) == [Point(110, 55)]
  {
  }

  /** On a 640 x 640 surface the window of half-size 10 around (110, 55) is 20 x 20. */
  lemma ExampleWindowIsSquare(image: Surface)
    requires IsGrid(image) && |image| == 640 && |image[0]| == 640
    ensures var w := CenterArea(image, Point(110, 55), 10);
      |w| == 20 && forall i :: 0 <= i < 20 ==> |w[i]| == 20
  {
    CenterAreaInside(image, Point(110, 55), 10);
  }

  /** A centre 3 rows below the top edge of a 640-row surface, with half-size 5,
      slices rows [-2:8]: the start counts from the end, the window is empty,
      and the step fails instead of using a smaller window. */
  lemma NearTopEdgeFails(image: Surface, score: real, category: int)
    requires |image| == 640
    ensures CenterArea(image, Point(3, 300), 5) == []
    ensures Classify(image, [Box(300, 3, 300, 3)], [score], [category], 5, 3) == Failed(EmptyWindow)
  {
    assert CenterPoint(Box(300, 3, 300, 3)) == Point(3, 300);
    assert Bound(3 - 5, 640) == 638;
    var windows := CenterAreas(image, CenterPoints([Box(300, 3, 300, 3)]), 5);
    assert windows[0] == [];
    assert Size(windows[0]) == 0;
  }

  // ------------------------------------------------------ the stateful step

  /** `addon_object.inference`: the detections of one frame, updated in place. */
  class Inference {
    var boxes: seq<Box>
    var scores: seq<real>
    var classes: seq<int>
    var extra: map<string, seq<int>>

    constructor (boxes: seq<Box>, scores: seq<real>, classes: seq<int>, extra: map<string, seq<int>>)
      ensures this.boxes == boxes && this.scores == scores
      ensures this.classes == classes && this.extra == extra
    {
      this.boxes := boxes;
      this.scores := scores;
      this.classes := classes;
      this.extra := extra;
    }
  }

  datatype Status = Done | Raised(failure: Failure)

  /** `DepthEstimator` with the two settings `post_process` reads. */
  class DepthEstimator {
    const stages: int
    const gridSize: int

    constructor (stages: int, gridSize: int)
      ensures this.stages == stages && this.gridSize == gridSize
    {
      this.stages := stages;
      this.gridSize := gridSize;
    }

    /** The nested loop of `post_process` over the sorted distances and the stages. */
    method StageDistanceIds(sortedObjDistances: seq<int>, minDist: real, stepSize: real)
      returns (stageDistanceIds: seq<int>)
      ensures stageDistanceIds == StageIds(sortedObjDistances, minDist, stepSize, stages)
    {
      stageDistanceIds := [];
      var i := 0;
      while i < |sortedObjDistances|
        invariant 0 <= i <= |sortedObjDistances|
        invariant stageDistanceIds == StageIds(sortedObjDistances[..i], minDist, stepSize, stages)
      {
        var objectDist := (sortedObjDistances[i] as real);
        ghost var before := stageDistanceIds;
        var j := 0;
        while j < stages
          invariant 0 <= j
          invariant stageDistanceIds == before
          invariant FirstBin(objectDist, minDist, stepSize, stages) ==
                    FirstBinFrom(objectDist, minDist, stepSize, stages, j)
        {
          if objectDist >= stepSize * (j as real) + minDist && objectDist <= stepSize * ((j + 1) as real) + minDist {
            stageDistanceIds := stageDistanceIds + [(stages - 1) - j];
            break;
          }
          j := j + 1;
        }
        assert sortedObjDistances[..i + 1][..i] == sortedObjDistances[..i];
        i := i + 1;
      }
      assert sortedObjDistances[..i] == sortedObjDistances;
    }

    /** The values `post_process` computes from the detections and the depth
        surface, before it writes any of them back. */
    method Reorder(depth: Surface, coords: seq<Box>, scores: seq<real>, classes: seq<int>)
      returns (r: Outcome)
      ensures r == Classify(depth, coords, scores, classes, gridSize, stages)
    {
      if |coords| == 0 {
        return NoObjects;
      }
      var centerPoints := CenterPoints(coords);
      var imageSquares := CenterAreas(depth, centerPoints, gridSize);
      var distances := ObjectDistances(imageSquares);
      assert distances == BoxDistances(depth, coords, gridSize);
      if distances.None? {
        return Failed(EmptyWindow);
      }
      var objectDistances := distances.value;
      var depthSizes := DescendingOrder(objectDistances);
      if |scores| < |coords| || |classes| < |coords| {
        return Failed(IndexOutOfRange);
      }
      ClassifyReorders(depth, coords, scores, classes, gridSize, stages);
      var sortedCoords := Permute(coords, depthSizes);
      var sortedScores := TruncAll(Permute(scores, depthSizes));
      var sortedClasses := Permute(classes, depthSizes);
      var sortedObjDistances := Permute(objectDistances, depthSizes);
      var minDist, maxDist := SurfaceMin(depth), SurfaceMax(depth);
      var stepSize := StepSize(minDist, maxDist, stages);
      var stageDistanceIds := StageDistanceIds(sortedObjDistances, minDist, stepSize);
      r := Reordered(sortedCoords, sortedScores, sortedClasses, stageDistanceIds);
    }

    /** `post_process` on a frame whose estimated depth surface is `depth`: the
        reordered boxes, the int32 scores, the classes and the stage ids are
        written back into the inference, or nothing changes. */
    method PostProcess(inference: Inference, depth: Surface) returns (status: Status)
      modifies inference
      ensures var r := Classify(depth, old(inference.boxes), old(inference.scores),
                                old(inference.classes), gridSize, stages);
        match r
        case NoObjects => status == Done && unchanged(inference)
        case Failed(e) => status == Raised(e) && unchanged(inference)
        case Reordered(boxes, scores, classes, ids) =>
          status == Done &&
          inference.boxes == boxes && inference.scores == AsReals(scores) &&
          inference.classes == classes &&
          inference.extra == old(inference.extra)[DistanceIdsKey := ids]
    {
      var r := Reorder(depth, inference.boxes, inference.scores, inference.classes);
      match r
      case NoObjects =>
        status := Done;
      case Failed(e) =>
        status := Raised(e);
      case Reordered(sortedCoords, sortedScores, sortedClasses, stageDistanceIds) =>
        inference.boxes := sortedCoords;
        inference.scores := AsReals(sortedScores);
        inference.classes := sortedClasses;
        inference.extra := inference.extra[DistanceIdsKey := stageDistanceIds];
        status := Done;
    }
  }
}
