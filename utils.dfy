/** Grid utilities: coordinate validation, the tile neighbourhood, min-max normalisation,
    3x3 smoothing, the normal field and the height-band texture. */
module Utils {
  import opened Terrain
  import Config

  // ---------------------------------------------------------------------------------
  // Coordinates

  /** Latitude and longitude are valid when both lie in their closed ranges. */
  function ValidateCoordinates(lat: real, lon: real): (ok: bool)
    ensures ok <==> -90.0 <= lat <= 90.0 && -180.0 <= lon <= 180.0
  {
    if !(-90.0 <= lat <= 90.0) then false
    else if !(-180.0 <= lon <= 180.0) then false
    else true
  }

  /** The bounds are inclusive: the poles and the antimeridian are valid, and anything a
      little beyond them is not. */
  lemma ValidateBoundsInclusive(eps: real)
    requires eps > 0.0
    ensures ValidateCoordinates(90.0, 180.0) && ValidateCoordinates(-90.0, -180.0)
    ensures !ValidateCoordinates(90.0 + eps, 0.0) && !ValidateCoordinates(-90.0 - eps, 0.0)
    ensures !ValidateCoordinates(0.0, 180.0 + eps) && !ValidateCoordinates(0.0, -180.0 - eps)
  {
  }

  /** Whatever name is asked for, the configured location lookup yields valid coordinates. */
  lemma LocationsAreValid(name: string)
    ensures ValidateCoordinates(Config.GetLocationCoordinates(name).0,
                                Config.GetLocationCoordinates(name).1)
  {
  }

  // ---------------------------------------------------------------------------------
  // Tile neighbourhood

  /** The number of offsets per axis: `range(-h, h + 1)` with `h = tile_count // 2`.
      Dafny's `/` agrees with Python's `//` because the divisor is positive. */
  function TileSide(tileCount: int): nat {
    var half := tileCount / 2;
    if half >= 0 then 2 * half + 1 else 0
  }

  /** The tiles of one x offset: `(x, centerY + dy)` for dy from `-half` to `half`. */
  function OffsetColumn(x: int, centerY: int, half: int, n: nat): (c: seq<(int, int)>)
    ensures |c| == n
  {
    seq(n, b requires 0 <= b < n => (x, centerY - half + b))
  }

  /** The tiles of the first `m` x offsets, the x offset in the outer loop and the y offset
      in the inner one. */
  function OffsetColumns(centerX: int, centerY: int, half: int, n: nat, m: nat): seq<(int, int)> {
    if m == 0 then []
    else OffsetColumns(centerX, centerY, half, n, m - 1) + OffsetColumn(centerX - half + m - 1, centerY, half, n)
  }

  /** The tiles around the centre tile, `tile_count // 2` offsets to each side. */
  function TileBounds(centerX: int, centerY: int, tileCount: int): seq<(int, int)> {
    var n := TileSide(tileCount);
    OffsetColumns(centerX, centerY, tileCount / 2, n, n)
  }

  /** calculate_tile_bounds, from the centre tile that lat_lon_to_tile computed. */
  method CalculateTileBounds(centerX: int, centerY: int, tileCount: int) returns (tiles: seq<(int, int)>)
    ensures tiles == TileBounds(centerX, centerY, tileCount)
  {
    tiles := [];
    var half := tileCount / 2;
    ghost var n := TileSide(tileCount);
    var dx := -half;
    while dx < half + 1
      invariant half >= 0 ==> -half <= dx <= half + 1
      invariant half < 0 ==> dx == -half
      invariant tiles == OffsetColumns(centerX, centerY, half, n, dx + half)
    {
      var dy := -half;
      ghost var column := OffsetColumn(centerX + dx, centerY, half, n);
      while dy < half + 1
        invariant -half <= dy <= half + 1
        invariant tiles == OffsetColumns(centerX, centerY, half, n, dx + half) + column[..dy + half]
      {
        assert column[..dy + half + 1] == column[..dy + half] + [(centerX + dx, centerY + dy)];
        tiles := tiles + [(centerX + dx, centerY + dy)];
        dy := dy + 1;
      }
      assert column[..n] == column;
      dx := dx + 1;
    }
  }

  lemma {:induction false} OffsetColumnsLength(centerX: int, centerY: int, half: int, n: nat, m: nat)
    ensures |OffsetColumns(centerX, centerY, half, n, m)| == m * n
  {
    if m > 0 {
      OffsetColumnsLength(centerX, centerY, half, n, m - 1);
    }
  }

  /** Position `a * n + b` of the first `m` columns holds offsets (a, b) from the corner. */
  lemma {:induction false} OffsetColumnsAt(centerX: int, centerY: int, half: int, n: nat, m: nat, a: nat, b: nat)
    requires a < m && b < n
    ensures a * n + b < |OffsetColumns(centerX, centerY, half, n, m)|
    ensures OffsetColumns(centerX, centerY, half, n, m)[a * n + b] == (centerX - half + a, centerY - half + b)
  {
    OffsetColumnsLength(centerX, centerY, half, n, m);
    OffsetColumnsLength(centerX, centerY, half, n, m - 1);
    if a < m - 1 {
      OffsetColumnsAt(centerX, centerY, half, n, m - 1, a, b);
      assert a * n + b < (m - 1) * n;
    } else {
      assert a * n + b == (m - 1) * n + b;
    }
  }

  /** There are `(2 * (tile_count // 2) + 1)^2` tiles (none for a negative count), nine for
      the default count of three, with the centre tile in the middle. */
  lemma TileBoundsCount(centerX: int, centerY: int, tileCount: int)
    ensures |TileBounds(centerX, centerY, tileCount)| == TileSide(tileCount) * TileSide(tileCount)
    ensures tileCount >= 0 ==> TileSide(tileCount) == 2 * (tileCount / 2) + 1
    ensures tileCount < 0 ==> TileBounds(centerX, centerY, tileCount) == []
    ensures |TileBounds(centerX, centerY, 3)| == 9 && TileBounds(centerX, centerY, 3)[4] == (centerX, centerY)
  {
    OffsetColumnsLength(centerX, centerY, tileCount / 2, TileSide(tileCount), TileSide(tileCount));
    assert 3 / 2 == 1 && TileSide(3) == 3;
    OffsetColumnsLength(centerX, centerY, 1, 3, 3);
    OffsetColumnsAt(centerX, centerY, 1, 3, 3, 1, 1);
  }

  /** Each offset pair appears exactly at its row-major position, so the list holds every
      pair of the square once. */
  lemma TileBoundsAt(centerX: int, centerY: int, tileCount: int, dx: int, dy: int)
    requires -(tileCount / 2) <= dx <= tileCount / 2 && -(tileCount / 2) <= dy <= tileCount / 2
    ensures var half, n := tileCount / 2, TileSide(tileCount);
      var k := (dx + half) * n + (dy + half);
      0 <= k < |TileBounds(centerX, centerY, tileCount)| &&
      TileBounds(centerX, centerY, tileCount)[k] == (centerX + dx, centerY + dy)
  {
    var half, n := tileCount / 2, TileSide(tileCount);
    OffsetColumnsAt(centerX, centerY, half, n, n, dx + half, dy + half);
  }

  /** Every tile is within `tile_count // 2` of the centre on both axes. */
  lemma TileBoundsNear(centerX: int, centerY: int, tileCount: int, k: nat)
    requires k < |TileBounds(centerX, centerY, tileCount)|
    ensures var (x, y) := TileBounds(centerX, centerY, tileCount)[k];
      -(tileCount / 2) <= x - centerX <= tileCount / 2 &&
      -(tileCount / 2) <= y - centerY <= tileCount / 2
  {
    var half, n := tileCount / 2, TileSide(tileCount);
    OffsetColumnsLength(centerX, centerY, half, n, n);
    DivModBelow(k, n);
    OffsetColumnsAt(centerX, centerY, half, n, n, k / n, k % n);
  }

  /** No tile is listed twice. */
  lemma TileBoundsDistinct(centerX: int, centerY: int, tileCount: int, k1: nat, k2: nat)
    requires k1 < k2 < |TileBounds(centerX, centerY, tileCount)|
    ensures TileBounds(centerX, centerY, tileCount)[k1] != TileBounds(centerX, centerY, tileCount)[k2]
  {
    var half, n := tileCount / 2, TileSide(tileCount);
    OffsetColumnsLength(centerX, centerY, half, n, n);
    DivModBelow(k1, n);
    DivModBelow(k2, n);
    OffsetColumnsAt(centerX, centerY, half, n, n, k1 / n, k1 % n);
    OffsetColumnsAt(centerX, centerY, half, n, n, k2 / n, k2 % n);
  }

  // ---------------------------------------------------------------------------------
  // Normalisation

  /** Where `h` sits between `lo` and `hi`, as a fraction of the range; 0 for an empty
      range (the `max_val == min_val` branch). */
  function Rescale(h: real, lo: real, hi: real): real {
    if hi == lo then 0.0 else (h - lo) / (hi - lo)
  }

  /** A value inside a proper range rescales into [0, 1], to 0 exactly at the bottom and
      to 1 exactly at the top. */
  lemma RescaleRange(h: real, lo: real, hi: real)
    requires lo <= h <= hi && lo < hi
    ensures 0.0 <= Rescale(h, lo, hi) <= 1.0
    ensures Rescale(h, lo, hi) == 0.0 <==> h == lo
    ensures Rescale(h, lo, hi) == 1.0 <==> h == hi
  {
    var q := Rescale(h, lo, hi);
    assert q * (hi - lo) == h - lo;
  }

  /** Rescaling keeps order. */
  lemma RescaleOrder(h1: real, h2: real, lo: real, hi: real)
    requires h1 <= h2 && lo <= hi
    ensures Rescale(h1, lo, hi) <= Rescale(h2, lo, hi)
  {
    if lo < hi {
      var q1, q2 := Rescale(h1, lo, hi), Rescale(h2, lo, hi);
      assert q1 * (hi - lo) == h1 - lo;
      assert q2 * (hi - lo) == h2 - lo;
      assert (q2 - q1) * (hi - lo) == h2 - h1;
    }
  }

  /** normalize_elevation_data: every sample rescaled by the grid's minimum and maximum, so
      all zeros when those are equal. What this guarantees is stated by the lemmas below. */
  function Normalize(g: Grid): (r: Grid)
    requires NonEmptyGrid(g)
    ensures IsShape(r, |g|, Cols(g))
  {
    var lo, hi := GridMin(g), GridMax(g);
    seq(|g|, i requires 0 <= i < |g| =>
      seq(Cols(g), j requires 0 <= j < Cols(g) => Rescale(g[i][j], lo, hi)))
  }

  /** A flat grid normalises to all zeros. */
  lemma NormalizeFlat(g: Grid, i: nat, j: nat)
    requires NonEmptyGrid(g) && IsFlat(g)
    requires i < |g| && j < Cols(g)
    ensures Normalize(g)[i][j] == 0.0
  {
  }

  /** On a grid that is not flat every normalised value lies in [0, 1], and it is 0 exactly
      at the minimum samples and 1 exactly at the maximum samples. */
  lemma NormalizeRange(g: Grid, i: nat, j: nat)
    requires NonEmptyGrid(g) && !IsFlat(g)
    requires i < |g| && j < Cols(g)
    ensures 0.0 <= Normalize(g)[i][j] <= 1.0
    ensures Normalize(g)[i][j] == 0.0 <==> g[i][j] == GridMin(g)
    ensures Normalize(g)[i][j] == 1.0 <==> g[i][j] == GridMax(g)
  {
    RescaleRange(g[i][j], GridMin(g), GridMax(g));
  }

  /** Normalisation keeps the order of the samples. */
  lemma NormalizeMonotone(g: Grid, i1: nat, j1: nat, i2: nat, j2: nat)
    requires NonEmptyGrid(g)
    requires i1 < |g| && j1 < Cols(g) && i2 < |g| && j2 < Cols(g)
    requires g[i1][j1] <= g[i2][j2]
    ensures Normalize(g)[i1][j1] <= Normalize(g)[i2][j2]
  {
    RescaleOrder(g[i1][j1], g[i2][j2], GridMin(g), GridMax(g));
  }

  // ---------------------------------------------------------------------------------
  // Smoothing

  /** `np.sum(region * kernel)` for a 3x3 region, with the kernel
      [[1, 2, 1], [2, 4, 2], [1, 2, 1]] / 16. */
  function WeightedSum(region: seq<seq<real>>): real
    requires IsShape(region, 3, 3)
  {
    (1.0 * region[0][0] + 2.0 * region[0][1] + 1.0 * region[0][2] +
     2.0 * region[1][0] + 4.0 * region[1][1] + 2.0 * region[1][2] +
     1.0 * region[2][0] + 2.0 * region[2][1] + 1.0 * region[2][2]) / 16.0
  }

  /** `smoothed[i-1:i+2, j-1:j+2]`. */
  function Region(s: Grid, i: nat, j: nat): (r: seq<seq<real>>)
    requires IsRectangular(s) && 0 < i < |s| - 1 && 0 < j < Cols(s) - 1
    ensures IsShape(r, 3, 3)
  {
    [[s[i-1][j-1], s[i-1][j], s[i-1][j+1]],
     [s[i][j-1], s[i][j], s[i][j+1]],
     [s[i+1][j-1], s[i+1][j], s[i+1][j+1]]]
  }

  predicate IsInterior(rows: nat, cols: nat, i: nat, j: nat) {
    0 < i < rows - 1 && 0 < j < cols - 1
  }

  /** One pass: interior cells become the weighted sum of their neighbourhood, the first and
      last rows and columns keep the previous pass's values. */
  function SmoothStep(s: Grid): (r: Grid)
    requires IsRectangular(s)
    ensures IsShape(r, |s|, Cols(s))
  {
    seq(|s|, i requires 0 <= i < |s| =>
      seq(Cols(s), j requires 0 <= j < Cols(s) =>
        if IsInterior(|s|, Cols(s), i, j) then WeightedSum(Region(s, i, j)) else s[i][j]))
  }

  function SmoothN(s: Grid, n: nat): (r: Grid)
    requires IsRectangular(s)
    ensures IsShape(r, |s|, Cols(s))
  {
    if n == 0 then s else SmoothStep(SmoothN(s, n - 1))
  }

  /** `range(iterations)` is empty for a negative count. */
  function Passes(iterations: int): nat {
    if iterations < 0 then 0 else iterations
  }

  /** Copies row `sr` of `src` into row `dr` of `dst` (numpy `dst[dr, :] = src[sr, :]`);
      `dst` and `src` may be the same array. */
  method CopyRow<T>(dst: array2<T>, src: array2<T>, dr: nat, sr: nat)
    requires dst.Length0 == src.Length0 && dst.Length1 == src.Length1
    requires dr < dst.Length0 && sr < src.Length0
    modifies dst
    ensures forall a, b :: 0 <= a < dst.Length0 && 0 <= b < dst.Length1 ==>
      dst[a, b] == if a == dr then old(src[sr, b]) else old(dst[a, b])
  {
    for b := 0 to dst.Length1
      invariant forall a, c :: 0 <= a < dst.Length0 && 0 <= c < dst.Length1 ==>
        dst[a, c] == if a == dr && c < b then old(src[sr, c]) else old(dst[a, c])
      invariant forall c :: b <= c < dst.Length1 ==> src[sr, c] == old(src[sr, c])
    {
      dst[dr, b] := src[sr, b];
    }
  }

  /** Copies column `sc` of `src` into column `dc` of `dst` (numpy
      `dst[:, dc] = src[:, sc]`); `dst` and `src` may be the same array. */
  method CopyColumn<T>(dst: array2<T>, src: array2<T>, dc: nat, sc: nat)
    requires dst.Length0 == src.Length0 && dst.Length1 == src.Length1
    requires dc < dst.Length1 && sc < src.Length1
    modifies dst
    ensures forall a, b :: 0 <= a < dst.Length0 && 0 <= b < dst.Length1 ==>
      dst[a, b] == if b == dc then old(src[a, sc]) else old(dst[a, b])
  {
    for a := 0 to dst.Length0
      invariant forall c, b :: 0 <= c < dst.Length0 && 0 <= b < dst.Length1 ==>
        dst[c, b] == if b == dc && c < a then old(src[c, sc]) else old(dst[c, b])
      invariant forall c :: a <= c < dst.Length0 ==> src[c, sc] == old(src[c, sc])
    {
      dst[a, dc] := src[a, sc];
    }
  }

  /** The loop nest of one pass: every interior cell of `result` gets the weighted sum of
      its neighbourhood in `smoothed`; no other cell changes. */
  method SmoothInterior(result: array2<real>, smoothed: array2<real>, ghost s: Grid)
    requires IsRectangular(s) && result != smoothed
    requires smoothed.Length0 == result.Length0 == |s| && smoothed.Length1 == result.Length1 == Cols(s)
    requires forall a, b :: 0 <= a < |s| && 0 <= b < Cols(s) ==> smoothed[a, b] == s[a][b]
    modifies result
    ensures forall a, b :: 0 <= a < |s| && 0 <= b < Cols(s) ==>
      result[a, b] == if IsInterior(|s|, Cols(s), a, b) then WeightedSum(Region(s, a, b)) else old(result[a, b])
  {
    var rows, cols := smoothed.Length0, smoothed.Length1;
    var i := 1;
    while i < rows - 1
      invariant 1 <= i && (rows >= 2 ==> i <= rows - 1)
      invariant forall a, b :: 0 <= a < rows && 0 <= b < cols ==>
        result[a, b] == if IsInterior(rows, cols, a, b) && a < i then WeightedSum(Region(s, a, b)) else old(result[a, b])
    {
      var j := 1;
      while j < cols - 1
        invariant 1 <= j && (cols >= 2 ==> j <= cols - 1)
        invariant forall a, b :: 0 <= a < rows && 0 <= b < cols ==>
          result[a, b] == if IsInterior(rows, cols, a, b) && (a < i || (a == i && b < j))
                          then WeightedSum(Region(s, a, b)) else old(result[a, b])
      {
        var region := [[smoothed[i-1, j-1], smoothed[i-1, j], smoothed[i-1, j+1]],
                       [smoothed[i, j-1], smoothed[i, j], smoothed[i, j+1]],
                       [smoothed[i+1, j-1], smoothed[i+1, j], smoothed[i+1, j+1]]];
        assert region == Region(s, i, j);
        result[i, j] := WeightedSum(region);
        j := j + 1;
      }
      i := i + 1;
    }
  }

  /** The body of one iteration: a fresh zero array, the interior loop nest, then the first
      and last rows and columns copied from the previous pass. */
  method SmoothPass(smoothed: array2<real>, ghost s: Grid) returns (result: array2<real>)
    requires IsRectangular(s) && |s| > 0 && Cols(s) > 0
    requires smoothed.Length0 == |s| && smoothed.Length1 == Cols(s)
    requires forall a, b :: 0 <= a < |s| && 0 <= b < Cols(s) ==> smoothed[a, b] == s[a][b]
    ensures fresh(result) && result.Length0 == |s| && result.Length1 == Cols(s)
    ensures forall a, b :: 0 <= a < |s| && 0 <= b < Cols(s) ==> result[a, b] == SmoothStep(s)[a][b]
  {
    var rows, cols := smoothed.Length0, smoothed.Length1;
    ghost var t := SmoothStep(s);
    result := new real[rows, cols]((_, _) => 0.0);
    SmoothInterior(result, smoothed, s);
    CopyRow(result, smoothed, 0, 0);
    CopyRow(result, smoothed, rows - 1, rows - 1);
    CopyColumn(result, smoothed, 0, 0);
    CopyColumn(result, smoothed, cols - 1, cols - 1);
    forall a, b | 0 <= a < rows && 0 <= b < cols ensures result[a, b] == t[a][b] {
      if !IsInterior(rows, cols, a, b) {
        assert t[a][b] == s[a][b];
      }
    }
  }

  /** smooth_elevation_data: `iterations` smoothing passes over a copy of the input (the
      input grid is a value and cannot change). An empty grid makes the border copies raise
      IndexError, hence the precondition. */
  method SmoothElevationData(g: Grid, iterations: int) returns (smoothed: array2<real>)
    requires IsRectangular(g)
    requires iterations > 0 ==> |g| > 0 && Cols(g) > 0
    ensures fresh(smoothed)
    ensures smoothed.Length0 == |g| && smoothed.Length1 == Cols(g)
    ensures forall i, j :: 0 <= i < |g| && 0 <= j < Cols(g) ==>
      smoothed[i, j] == SmoothN(g, Passes(iterations))[i][j]
  {
    var rows, cols := |g|, Cols(g);
    smoothed := new real[rows, cols]((i, j) requires 0 <= i < rows && 0 <= j < cols => g[i][j]);
    for it := 0 to Passes(iterations)
      invariant fresh(smoothed) && smoothed.Length0 == rows && smoothed.Length1 == cols
      invariant forall i, j :: 0 <= i < rows && 0 <= j < cols ==> smoothed[i, j] == SmoothN(g, it)[i][j]
    {
      smoothed := SmoothPass(smoothed, SmoothN(g, it));
    }
  }

  /** The first and last rows and columns never change, however many passes run. */
  lemma {:induction false} SmoothKeepsBorder(s: Grid, n: nat, i: nat, j: nat)
    requires IsRectangular(s) && i < |s| && j < Cols(s)
    requires !IsInterior(|s|, Cols(s), i, j)
    ensures SmoothN(s, n)[i][j] == s[i][j]
  {
    if n > 0 {
      SmoothKeepsBorder(s, n - 1, i, j);
    }
  }

  predicate IsConstant(s: Grid, c: real) {
    forall i, j :: 0 <= i < |s| && 0 <= j < |s[i]| ==> s[i][j] == c
  }

  /** The kernel weights sum to one, so a constant grid is left as it is. */
  lemma {:induction false} SmoothConstant(s: Grid, c: real, n: nat)
    requires IsRectangular(s) && IsConstant(s, c)
    ensures SmoothN(s, n) == s
  {
    if n > 0 {
      SmoothConstant(s, c, n - 1);
      var r := SmoothStep(s);
      forall i, j | 0 <= i < |s| && 0 <= j < Cols(s) ensures r[i][j] == s[i][j] {
        if IsInterior(|s|, Cols(s), i, j) {
          assert Region(s, i, j) == [[c, c, c], [c, c, c], [c, c, c]];
        }
      }
      assert forall i :: 0 <= i < |s| ==> r[i] == s[i];
    }
  }

  predicate Bounded(s: Grid, lo: real, hi: real) {
    forall i, j :: 0 <= i < |s| && 0 <= j < |s[i]| ==> lo <= s[i][j] <= hi
  }

  lemma WeightedSumBounded(region: seq<seq<real>>, lo: real, hi: real)
    requires IsShape(region, 3, 3) && Bounded(region, lo, hi)
    ensures lo <= WeightedSum(region) <= hi
  {
    assert lo <= region[0][0] <= hi && lo <= region[0][1] <= hi && lo <= region[0][2] <= hi;
    assert lo <= region[1][0] <= hi && lo <= region[1][1] <= hi && lo <= region[1][2] <= hi;
    assert lo <= region[2][0] <= hi && lo <= region[2][1] <= hi && lo <= region[2][2] <= hi;
  }

  lemma StepBounded(p: Grid, lo: real, hi: real)
    requires IsRectangular(p) && Bounded(p, lo, hi)
    ensures Bounded(SmoothStep(p), lo, hi)
  {
    var r := SmoothStep(p);
    forall i, j | 0 <= i < |r| && 0 <= j < |r[i]| ensures lo <= r[i][j] <= hi {
      if IsInterior(|p|, Cols(p), i, j) {
        WeightedSumBounded(Region(p, i, j), lo, hi);
      }
    }
  }

  /** Each pass takes weighted averages, so the values stay within the bounds of the input. */
  lemma {:induction false} SmoothStaysBounded(s: Grid, lo: real, hi: real, n: nat)
    requires IsRectangular(s) && Bounded(s, lo, hi)
    ensures Bounded(SmoothN(s, n), lo, hi)
  {
    if n > 0 {
      SmoothStaysBounded(s, lo, hi, n - 1);
      StepBounded(SmoothN(s, n - 1), lo, hi);
    }
  }

  // ---------------------------------------------------------------------------------
  // Normals

  const Zero3: Vec3 := Vec3(0.0, 0.0, 0.0)

  /** The normal of an interior cell before division by its length: the negated central
      differences, scaled, with a z component of 2. */
  function RawNormal(g: Grid, scale: real, i: nat, j: nat): Vec3
    requires IsRectangular(g) && IsInterior(|g|, Cols(g), i, j)
  {
    var dx := g[i][j + 1] - g[i][j - 1];
    var dy := g[i + 1][j] - g[i - 1][j];
    Vec3(-dx * scale, -dy * scale, 2.0)
  }

  /** `m[dst, :] = m[src, :]`. */
  function WithRow<T>(m: seq<seq<T>>, dst: nat, src: nat): (r: seq<seq<T>>)
    requires IsRectangular(m) && dst < |m| && src < |m|
    ensures IsShape(r, |m|, Cols(m))
  {
    m[dst := m[src]]
  }

  /** `m[:, dst] = m[:, src]`. */
  function WithColumn<T>(m: seq<seq<T>>, dst: nat, src: nat): (r: seq<seq<T>>)
    requires IsRectangular(m) && dst < Cols(m) && src < Cols(m)
    ensures IsShape(r, |m|, Cols(m))
  {
    seq(|m|, i requires 0 <= i < |m| => m[i][dst := m[i][src]])
  }

  /** The raw normals of the interior cells, zero elsewhere (`np.zeros` before the loop). */
  function InteriorNormals(g: Grid, scale: real): (r: seq<seq<Vec3>>)
    requires IsRectangular(g)
    ensures IsShape(r, |g|, Cols(g))
  {
    seq(|g|, i requires 0 <= i < |g| =>
      seq(Cols(g), j requires 0 <= j < Cols(g) =>
        if IsInterior(|g|, Cols(g), i, j) then RawNormal(g, scale, i, j) else Zero3))
  }

  /** The grids needed by calculate_normals: its border copies index rows and columns 1
      and -2. */
  predicate NormalsDefined(g: Grid) {
    IsRectangular(g) && |g| >= 2 && Cols(g) >= 2
  }

  /** The field calculate_normals returns: the interior normals, then row 0 copied from
      row 1, the last row from the one before, column 0 from column 1 and the last column
      from the one before, in that order. */
  function NormalField(g: Grid, scale: real): (r: seq<seq<Vec3>>)
    requires NormalsDefined(g)
    ensures IsShape(r, |g|, Cols(g))
  {
    var rows, cols := |g|, Cols(g);
    var n1 := WithRow(InteriorNormals(g, scale), 0, 1);
    var n2 := WithRow(n1, rows - 1, rows - 2);
    var n3 := WithColumn(n2, 0, 1);
    WithColumn(n3, cols - 1, cols - 2)
  }

  /** calculate_normals, with each stored normal the raw vector (the division by its length
      is not modelled; see NormalDirection). */
  method CalculateNormals(g: Grid, scale: real) returns (normals: array2<Vec3>)
    requires NormalsDefined(g)
    ensures fresh(normals) && normals.Length0 == |g| && normals.Length1 == Cols(g)
    ensures forall i, j :: 0 <= i < |g| && 0 <= j < Cols(g) ==> normals[i, j] == NormalField(g, scale)[i][j]
  {
    var rows, cols := |g|, Cols(g);
    ghost var n0 := InteriorNormals(g, scale);
    normals := new Vec3[rows, cols]((_, _) => Zero3);
    for i := 1 to rows - 1
      invariant forall a, b :: 0 <= a < rows && 0 <= b < cols ==>
        normals[a, b] == if a < i then n0[a][b] else Zero3
    {
      for j := 1 to cols - 1
        invariant forall a, b :: 0 <= a < rows && 0 <= b < cols ==>
          normals[a, b] == if a < i || (a == i && b < j) then n0[a][b] else Zero3
      {
        var dx := g[i][j + 1] - g[i][j - 1];
        var dy := g[i + 1][j] - g[i - 1][j];
        var normal := Vec3(-dx * scale, -dy * scale, 2.0);
        normals[i, j] := normal;
      }
    }
    ghost var n1 := WithRow(n0, 0, 1);
    CopyRow(normals, normals, 0, 1);
    assert forall a, b :: 0 <= a < rows && 0 <= b < cols ==> normals[a, b] == n1[a][b];
    ghost var n2 := WithRow(n1, rows - 1, rows - 2);
    CopyRow(normals, normals, rows - 1, rows - 2);
    assert forall a, b :: 0 <= a < rows && 0 <= b < cols ==> normals[a, b] == n2[a][b];
    ghost var n3 := WithColumn(n2, 0, 1);
    CopyColumn(normals, normals, 0, 1);
    assert forall a, b :: 0 <= a < rows && 0 <= b < cols ==> normals[a, b] == n3[a][b];
    CopyColumn(normals, normals, cols - 1, cols - 2);
  }

  /** Interior cells keep their raw normal, whose z component is 2; its squared length is
      therefore positive and the zero-length fallback is never taken. */
  lemma NormalDirection(g: Grid, scale: real, i: nat, j: nat)
    requires NormalsDefined(g) && IsInterior(|g|, Cols(g), i, j)
    ensures NormalField(g, scale)[i][j] == RawNormal(g, scale, i, j)
    ensures RawNormal(g, scale, i, j).z == 2.0
    ensures Dot(RawNormal(g, scale, i, j), RawNormal(g, scale, i, j)) > 0.0
  {
  }

  /** The border rows are copies of their inner neighbours, and columns 0 and -1 are copies
      of columns 1 and -2 of the field after the row copies. */
  lemma NormalBorders(g: Grid, scale: real, i: nat, j: nat)
    requires NormalsDefined(g) && i < |g| && j < Cols(g)
    ensures var f, rows, cols := NormalField(g, scale), |g|, Cols(g);
      (0 < j < cols - 1 ==> f[0][j] == f[1][j] && f[rows - 1][j] == f[rows - 2][j]) &&
      f[i][0] == f[i][1] && f[i][cols - 1] == f[i][cols - 2]
  {
  }

  /** On a grid of at least 3x3 every entry of the field, corners included, is the raw
      normal of the nearest interior cell; in particular the corner (0, 0) is that of
      (1, 1). */
  lemma NormalFieldFromInterior(g: Grid, scale: real, i: nat, j: nat)
    requires NormalsDefined(g) && |g| >= 3 && Cols(g) >= 3
    requires i < |g| && j < Cols(g)
    ensures var rows, cols := |g|, Cols(g);
      var ci := if i == 0 then 1 else if i == rows - 1 then rows - 2 else i;
      var cj := if j == 0 then 1 else if j == cols - 1 then cols - 2 else j;
      NormalField(g, scale)[i][j] == RawNormal(g, scale, ci, cj)
    ensures NormalField(g, scale)[0][0] == RawNormal(g, scale, 1, 1)
  {
  }

  /** With only two rows or two columns there is no interior cell, and every entry of the
      field stays the zero vector. */
  lemma NormalFieldDegenerate(g: Grid, scale: real, i: nat, j: nat)
    requires NormalsDefined(g) && (|g| == 2 || Cols(g) == 2)
    requires i < |g| && j < Cols(g)
    ensures NormalField(g, scale)[i][j] == Zero3
  {
  }

  // ---------------------------------------------------------------------------------
  // Height-map texture

  /** `(c * 255).astype(np.uint8)` for a channel in [0, 1]: truncation toward zero. */
  function ToByte(c: real): (b: Byte)
    requires 0.0 <= c <= 1.0
    ensures b as real <= c * 255.0 < b as real + 1.0
  {
    (c * 255.0).Floor
  }

  function ColorBytes(c: Config.Rgb): Rgb8
    requires Config.IsUnitColor(c)
  {
    Rgb8(ToByte(c.r), ToByte(c.g), ToByte(c.b))
  }

  /** The texture colour of one cell: the band of its normalised height, in bytes. */
  function TextureColor(g: Grid, i: nat, j: nat): Rgb8
    requires NonEmptyGrid(g) && i < |g| && j < Cols(g)
  {
    ColorBytes(BandColor(BandOf(Normalize(g)[i][j])))
  }

  /** generate_heightmap_texture: a rows x cols array of 8-bit RGB triples. */
  method GenerateHeightmapTexture(g: Grid) returns (colors: array2<Rgb8>)
    requires NonEmptyGrid(g)
    ensures fresh(colors) && colors.Length0 == |g| && colors.Length1 == Cols(g)
    ensures forall i, j :: 0 <= i < |g| && 0 <= j < Cols(g) ==> colors[i, j] == TextureColor(g, i, j)
  {
    var normalized := Normalize(g);
    var rows, cols := |g|, Cols(g);
    colors := new Rgb8[rows, cols]((_, _) => Rgb8(0, 0, 0));
    for i := 0 to rows
      invariant forall a, b :: 0 <= a < i && 0 <= b < cols ==> colors[a, b] == TextureColor(g, a, b)
    {
      for j := 0 to cols
        invariant forall a, b :: 0 <= a < rows && 0 <= b < cols && (a < i || (a == i && b < j)) ==>
          colors[a, b] == TextureColor(g, a, b)
      {
        var height := normalized[i][j];
        colors[i, j] := ColorBytes(BandColor(BandOf(height)));
      }
    }
  }

  /** The four band colours in bytes (0.7 * 255 = 178.5 and 0.9 * 255 = 229.5 truncate). */
  lemma BandBytes()
    ensures ColorBytes(BandColor(Water)) == Rgb8(51, 102, 204)
    ensures ColorBytes(BandColor(LowLand)) == Rgb8(51, 178, 51)
    ensures ColorBytes(BandColor(MidLand)) == Rgb8(153, 102, 51)
    ensures ColorBytes(BandColor(HighLand)) == Rgb8(229, 229, 229)
  {
  }

  /** A flat grid is all water, whatever its height. */
  lemma FlatTextureIsWater(g: Grid, i: nat, j: nat)
    requires NonEmptyGrid(g) && IsFlat(g) && i < |g| && j < Cols(g)
    ensures TextureColor(g, i, j) == Rgb8(51, 102, 204)
  {
    BandBytes();
  }

  /** On a grid that is not flat, a lowest cell is water and a highest cell is high land. */
  lemma ExtremesOfTexture(g: Grid, i: nat, j: nat)
    requires NonEmptyGrid(g) && !IsFlat(g) && i < |g| && j < Cols(g)
    ensures g[i][j] == GridMin(g) ==> TextureColor(g, i, j) == Rgb8(51, 102, 204)
    ensures g[i][j] == GridMax(g) ==> TextureColor(g, i, j) == Rgb8(229, 229, 229)
  {
    NormalizeRange(g, i, j);
    BandBytes();
  }
}
