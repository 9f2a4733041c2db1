/** Values shared by the grid utilities, the data loader and the widget: elevation grids,
    their minimum and maximum, 3-vectors, 8-bit colours and the four height bands. */
module Terrain {
  import Config

  datatype Option<T> = None | Some(value: T)

  /** A two-dimensional array of samples, row by row. */
  type Grid = seq<seq<real>>

  datatype Vec3 = Vec3(x: real, y: real, z: real)

  function Dot(v: Vec3, w: Vec3): real {
    v.x * w.x + v.y * w.y + v.z * w.z
  }

  /** `g` has exactly `rows` rows of `cols` entries each. */
  predicate IsShape<T>(g: seq<seq<T>>, rows: nat, cols: nat) {
    |g| == rows && forall i :: 0 <= i < rows ==> |g[i]| == cols
  }

  function Cols<T>(g: seq<seq<T>>): nat {
    if |g| == 0 then 0 else |g[0]|
  }

  /** What a two-dimensional numpy array can hold: all rows of one length. */
  predicate IsRectangular<T>(g: seq<seq<T>>) {
    IsShape(g, |g|, Cols(g))
  }

  /** A rectangular grid with at least one sample, so that np.min and np.max succeed. */
  predicate NonEmptyGrid(g: Grid) {
    IsRectangular(g) && |g| > 0 && Cols(g) > 0
  }

  function RowMin(s: seq<real>): (m: real)
    requires |s| > 0
    ensures forall k :: 0 <= k < |s| ==> m <= s[k]
    ensures exists k :: 0 <= k < |s| && s[k] == m
  {
    if |s| == 1 then s[0]
    else
      var rest := RowMin(s[1..]);
      assert forall k :: 1 <= k < |s| ==> s[k] == s[1..][k - 1];
      if s[0] <= rest then s[0] else rest
  }

  function RowMax(s: seq<real>): (m: real)
    requires |s| > 0
    ensures forall k :: 0 <= k < |s| ==> s[k] <= m
    ensures exists k :: 0 <= k < |s| && s[k] == m
  {
    if |s| == 1 then s[0]
    else
      var rest := RowMax(s[1..]);
      assert forall k :: 1 <= k < |s| ==> s[k] == s[1..][k - 1];
      if s[0] >= rest then s[0] else rest
  }

  /** np.min over every sample: a sample of the grid that no sample is below. */
  function GridMin(g: Grid): (m: real)
    requires |g| > 0 && forall i :: 0 <= i < |g| ==> |g[i]| > 0
    ensures forall i, j :: 0 <= i < |g| && 0 <= j < |g[i]| ==> m <= g[i][j]
    ensures exists i, j :: 0 <= i < |g| && 0 <= j < |g[i]| && g[i][j] == m
  {
    var here := RowMin(g[0]);
    if |g| == 1 then here
    else
      var rest := GridMin(g[1..]);
      assert forall i :: 1 <= i < |g| ==> g[i] == g[1..][i - 1];
      if here <= rest then here else rest
  }

  /** np.max over every sample: a sample of the grid that no sample is above. */
  function GridMax(g: Grid): (m: real)
    requires |g| > 0 && forall i :: 0 <= i < |g| ==> |g[i]| > 0
    ensures forall i, j :: 0 <= i < |g| && 0 <= j < |g[i]| ==> g[i][j] <= m
    ensures exists i, j :: 0 <= i < |g| && 0 <= j < |g[i]| && g[i][j] == m
  {
    var here := RowMax(g[0]);
    if |g| == 1 then here
    else
      var rest := GridMax(g[1..]);
      assert forall i :: 1 <= i < |g| ==> g[i] == g[1..][i - 1];
      if here >= rest then here else rest
  }

  /** A grid whose samples are all equal. */
  predicate IsFlat(g: Grid)
    requires NonEmptyGrid(g)
  {
    GridMin(g) == GridMax(g)
  }

  lemma FlatMeansConstant(g: Grid, i: nat, j: nat)
    requires NonEmptyGrid(g) && IsFlat(g)
    requires i < |g| && j < Cols(g)
    ensures g[i][j] == GridMin(g)
  {
  }

  /** One channel of an 8-bit image (numpy uint8). */
  type Byte = x: int | 0 <= x < 256

  datatype Rgb8 = Rgb8(r: Byte, g: Byte, b: Byte)

  /** The four height bands, from lowest to highest. */
  datatype HeightBand = Water | LowLand | MidLand | HighLand

  function Rank(b: HeightBand): nat {
    match b
    case Water => 0
    case LowLand => 1
    case MidLand => 2
    case HighLand => 3
  }

  /** The band of a normalised height: the first threshold the height is strictly below,
      or the high band when it is at or above all three. */
  function BandOf(h: real): (b: HeightBand)
    ensures b == Water <==> h < Config.WaterLevel
    ensures b == LowLand <==> Config.WaterLevel <= h < Config.LowLand
    ensures b == MidLand <==> Config.LowLand <= h < Config.MidLand
    ensures b == HighLand <==> Config.MidLand <= h
  {
    if h < Config.WaterLevel then Water
    else if h < Config.LowLand then LowLand
    else if h < Config.MidLand then MidLand
    else HighLand
  }

  /** A higher normalised height never lands in a lower band. */
  lemma BandMonotone(h1: real, h2: real)
    requires h1 <= h2
    ensures Rank(BandOf(h1)) <= Rank(BandOf(h2))
  {
  }

  /** A value exactly at a threshold belongs to the band above it. */
  lemma BandBoundaries()
    ensures BandOf(Config.WaterLevel) == LowLand
    ensures BandOf(Config.LowLand) == MidLand
    ensures BandOf(Config.MidLand) == HighLand
    ensures BandOf(0.0) == Water && BandOf(1.0) == HighLand
  {
  }

  /** The colour COLOR_SETTINGS gives a band. */
  function BandColor(b: HeightBand): (c: Config.Rgb)
    ensures Config.IsUnitColor(c)
  {
    match b
    case Water => Config.WaterColor
    case LowLand => Config.LandLowColor
    case MidLand => Config.LandMidColor
    case HighLand => Config.LandHighColor
  }

  /** Distinct bands get distinct colours, so the colour identifies the band. */
  lemma BandColorInjective(b1: HeightBand, b2: HeightBand)
    requires BandColor(b1) == BandColor(b2)
    ensures b1 == b2
  {
  }

  /** Row-major decomposition: `q * n + r` with `0 <= r < n` has quotient `q` and
      remainder `r`. */
  lemma DivModOf(q: int, r: int, n: int)
    requires n > 0 && 0 <= r < n
    ensures (q * n + r) / n == q && (q * n + r) % n == r
  {
    var k := q * n + r;
    var d := k / n - q;
    assert k == (k / n) * n + k % n;
    assert d * n == r - k % n;
  }

  /** Row i < size of a `size` x `size` grid ends inside it: `i * size + size <= size * size`. */
  lemma {:induction false} RowStartBelow(size: nat, i: nat)
    requires i < size
    ensures i * size + size <= size * size
    decreases size - i
  {
    if i + 1 < size {
      RowStartBelow(size, i + 1);
      assert (i + 1) * size == i * size + size;
    } else {
      assert (i + 1) * size == i * size + size;
    }
  }

  /** Cell (i, j) of a `size` x `size` grid has row-major position `i * size + j`, inside
      the grid, and that position splits back into (i, j). */
  lemma CellIndex(size: nat, i: nat, j: nat)
    requires i < size && j < size
    ensures i * size + j < size * size
    ensures (i * size + j) / size == i && (i * size + j) % size == j
  {
    RowStartBelow(size, i);
    DivModOf(i, j, size);
  }

  /** A row-major position below `rows * cols` names a row below `rows` and a column below
      `cols`. */
  lemma RowMajorSplit(k: int, rows: int, cols: int)
    requires 0 <= k < rows * cols && rows >= 0
    ensures cols > 0 && 0 <= k / cols < rows && 0 <= k % cols < cols
    ensures k == (k / cols) * cols + k % cols
  {
  }

  /** An index below `n * n` splits into a row and a column below `n`. */
  lemma DivModBelow(k: int, n: int)
    requires n > 0 && 0 <= k < n * n
    ensures 0 <= k / n < n && 0 <= k % n < n
    ensures k == (k / n) * n + k % n
  {
  }
}
