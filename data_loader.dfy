/** The index and placement arithmetic of the map data loader: the row-major coordinate
    grid, its partition into request batches, the per-cell write-back of the answers, the
    synthetic fallback grid, the 3x3 tile neighbourhood, the tile canvas and the gradient
    texture. The network, the disk cache and the image library are parameters or plain
    values here. */
module DataLoader {
  import opened Terrain
  import Config

  function Min(a: int, b: int): int {
    if a <= b then a else b
  }

  // ---------------------------------------------------------------------------------
  // The coordinate grid

  /** Degrees between neighbouring samples (`grid_size`, about a kilometre). */
  const GridStep: real := 0.01

  /** `k / d` as a fraction; callers keep `k <= d`. */
  function Fraction(k: nat, d: nat): real
    requires d > 0
  {
    (k as real) / (d as real)
  }

  lemma FractionUnit(k: nat, d: nat)
    requires d > 0 && k <= d
    ensures 0.0 <= Fraction(k, d) <= 1.0
    ensures k == 0 ==> Fraction(k, d) == 0.0
    ensures k == d ==> Fraction(k, d) == 1.0
  {
    var f := Fraction(k, d);
    assert f * (d as real) == k as real;
    if k == d {
      assert (f - 1.0) * (d as real) == 0.0;
    }
  }

  /** `np.linspace(start, stop, n)[k]`: n evenly spaced values from start to stop; a single
      value is start itself. */
  function Linspace(start: real, stop: real, n: nat, k: nat): real
    requires k < n
  {
    if n == 1 then start else start + (stop - start) * Fraction(k, n - 1)
  }

  /** The first value is the start, the last is the stop, and all lie between them. */
  lemma LinspaceBounds(start: real, stop: real, n: nat, k: nat)
    requires start <= stop && k < n
    ensures start <= Linspace(start, stop, n, k) <= stop
    ensures Linspace(start, stop, n, 0) == start
    ensures n >= 2 ==> Linspace(start, stop, n, n - 1) == stop
  {
    if n > 1 {
      FractionUnit(k, n - 1);
      FractionUnit(0, n - 1);
      FractionUnit(n - 1, n - 1);
      var f := Fraction(k, n - 1);
      var w := stop - start;
      assert 0.0 <= w * f && 0.0 <= w * (1.0 - f);
      assert w * f + w * (1.0 - f) == w;
    }
  }

  /** One entry of `coordinates`: a sample position and its cell. */
  datatype Coord = Coord(latitude: real, longitude: real, i: nat, j: nat)

  /** `half_size`: half the side of the sampled square, in degrees. */
  function HalfSpan(size: nat): real {
    GridStep * (size as real) / 2.0
  }

  /** The coordinate of cell (i, j): the i-th latitude and the j-th longitude. */
  function CoordAt(lat: real, lon: real, size: nat, i: nat, j: nat): Coord
    requires i < size && j < size
  {
    var h := HalfSpan(size);
    Coord(Linspace(lat - h, lat + h, size, i), Linspace(lon - h, lon + h, size, j), i, j)
  }

  /** The entries the inner loop appends for latitude index i, longitudes in order. */
  function CoordinateRow(lat: real, lon: real, size: nat, i: nat): (row: seq<Coord>)
    requires i < size
    ensures |row| == size
  {
    seq(size, j requires 0 <= j < size => CoordAt(lat, lon, size, i, j))
  }

  /** The entries of the first m latitude indices, row after row. */
  function CoordinateRows(lat: real, lon: real, size: nat, m: nat): seq<Coord>
    requires m <= size
  {
    if m == 0 then [] else CoordinateRows(lat, lon, size, m - 1) + CoordinateRow(lat, lon, size, m - 1)
  }

  /** The coordinate list: every latitude index in the outer loop, every longitude index in
      the inner one. */
  function CoordinateList(lat: real, lon: real, size: nat): (xs: seq<Coord>)
    ensures |xs| == size * size
  {
    CoordinateRowsLength(lat, lon, size, size);
    CoordinateRows(lat, lon, size, size)
  }

  /** The coordinate loop of get_elevation_data: latitudes in the outer loop, longitudes
      in the inner one. */
  method BuildCoordinates(lat: real, lon: real, size: nat) returns (coordinates: seq<Coord>)
    ensures coordinates == CoordinateList(lat, lon, size)
  {
    coordinates := [];
    for i := 0 to size
      invariant coordinates == CoordinateRows(lat, lon, size, i)
    {
      ghost var row := CoordinateRow(lat, lon, size, i);
      for j := 0 to size
        invariant coordinates == CoordinateRows(lat, lon, size, i) + row[..j]
      {
        assert row[..j + 1] == row[..j] + [CoordAt(lat, lon, size, i, j)];
        coordinates := coordinates + [CoordAt(lat, lon, size, i, j)];
      }
      assert row[..size] == row;
    }
  }

  /** m rows of `size` entries each. */
  lemma {:induction false} CoordinateRowsLength(lat: real, lon: real, size: nat, m: nat)
    requires m <= size
    ensures |CoordinateRows(lat, lon, size, m)| == m * size
  {
    if m > 0 {
      CoordinateRowsLength(lat, lon, size, m - 1);
    }
  }

  /** Among the first m rows, cell (a, b) sits at position a * size + b. */
  lemma {:induction false} CoordinateRowsAt(lat: real, lon: real, size: nat, m: nat, a: nat, b: nat)
    requires m <= size && a < m && b < size
    ensures a * size + b < |CoordinateRows(lat, lon, size, m)|
    ensures CoordinateRows(lat, lon, size, m)[a * size + b] == CoordAt(lat, lon, size, a, b)
  {
    CoordinateRowsLength(lat, lon, size, m);
    CoordinateRowsLength(lat, lon, size, m - 1);
    if a < m - 1 {
      CoordinateRowsAt(lat, lon, size, m - 1, a, b);
      assert a * size + b < (m - 1) * size;
    } else {
      assert a * size + b == (m - 1) * size + b;
    }
  }

  /** There are `size * size` coordinates and cell (i, j) sits at position `i * size + j`:
      the list is row-major and names every cell once. */
  lemma CoordinateListRowMajor(lat: real, lon: real, size: nat, i: nat, j: nat)
    requires i < size && j < size
    ensures |CoordinateList(lat, lon, size)| == size * size
    ensures 0 <= i * size + j < size * size
    ensures CoordinateList(lat, lon, size)[i * size + j] == CoordAt(lat, lon, size, i, j)
  {
    CoordinateRowsLength(lat, lon, size, size);
    CoordinateRowsAt(lat, lon, size, size, i, j);
  }

  /** Position k of the list holds cell (k / size, k % size). */
  lemma CoordinateListAt(lat: real, lon: real, size: nat, k: nat)
    requires k < size * size
    ensures k / size < size && k % size < size && (k / size) * size + k % size == k
    ensures k < |CoordinateList(lat, lon, size)|
    ensures CoordinateList(lat, lon, size)[k] == CoordAt(lat, lon, size, k / size, k % size)
  {
    RowMajorSplit(k, size, size);
    CoordinateListRowMajor(lat, lon, size, k / size, k % size);
  }

  /** Every sample lies in the square of side `size * 0.01` degrees centred on the request. */
  lemma CoordinatesInSquare(lat: real, lon: real, size: nat, i: nat, j: nat)
    requires i < size && j < size
    ensures var c := CoordAt(lat, lon, size, i, j);
      lat - HalfSpan(size) <= c.latitude <= lat + HalfSpan(size) &&
      lon - HalfSpan(size) <= c.longitude <= lon + HalfSpan(size)
  {
    var h := HalfSpan(size);
    LinspaceBounds(lat - h, lat + h, size, i);
    LinspaceBounds(lon - h, lon + h, size, j);
  }

  // ---------------------------------------------------------------------------------
  // Batches

  /** Python's `xs[lo:hi]` for non-negative bounds: both bounds clamped to the length. */
  function Slice<T>(xs: seq<T>, lo: nat, hi: nat): seq<T> {
    var l, h := Min(lo, |xs|), Min(hi, |xs|);
    if h <= l then [] else xs[l..h]
  }

  /** How many starts `range(0, n, batch_size)` yields: n / 100 rounded up. */
  function BatchCount(n: nat): nat {
    (n + Config.BatchSize - 1) / Config.BatchSize
  }

  /** Batch `b`: `coordinates[b * 100 : b * 100 + 100]`. */
  function BatchAt<T>(xs: seq<T>, b: nat): seq<T> {
    Slice(xs, b * Config.BatchSize, b * Config.BatchSize + Config.BatchSize)
  }

  /** The batch starts of `range(0, n, 100)` are exactly the multiples of 100 below n. */
  lemma BatchCountSpec(n: nat, b: nat)
    ensures b < BatchCount(n) <==> b * Config.BatchSize < n
  {
  }

  /** Every batch the loop visits holds between 1 and 100 entries. */
  lemma BatchSizes<T>(xs: seq<T>, b: nat)
    requires b < BatchCount(|xs|)
    ensures 1 <= |BatchAt(xs, b)| <= Config.BatchSize
  {
    BatchCountSpec(|xs|, b);
  }

  /** Entry k is entry k % 100 of batch k / 100. */
  lemma BatchMember<T>(xs: seq<T>, k: nat)
    requires k < |xs|
    ensures k / Config.BatchSize < BatchCount(|xs|)
    ensures k % Config.BatchSize < |BatchAt(xs, k / Config.BatchSize)|
    ensures BatchAt(xs, k / Config.BatchSize)[k % Config.BatchSize] == xs[k]
  {
    BatchCountSpec(|xs|, k / Config.BatchSize);
  }

  /** The first `m` batches laid end to end. */
  function Joined<T>(xs: seq<T>, m: nat): seq<T> {
    if m == 0 then [] else Joined(xs, m - 1) + BatchAt(xs, m - 1)
  }

  /** The first `m` batches are the first `m * 100` entries, in order. */
  lemma {:induction false} JoinedPrefix<T>(xs: seq<T>, m: nat)
    ensures Joined(xs, m) == xs[..Min(m * Config.BatchSize, |xs|)]
  {
    if m > 0 {
      JoinedPrefix(xs, m - 1);
      var lo := Min((m - 1) * Config.BatchSize, |xs|);
      var hi := Min(m * Config.BatchSize, |xs|);
      assert xs[..lo] + xs[lo..hi] == xs[..hi];
    }
  }

  /** The batches partition the list: laid end to end they give it back, so every entry
      lands in exactly one batch, in order. */
  lemma BatchesPartition<T>(xs: seq<T>)
    ensures Joined(xs, BatchCount(|xs|)) == xs
  {
    JoinedPrefix(xs, BatchCount(|xs|));
    assert Min(BatchCount(|xs|) * Config.BatchSize, |xs|) == |xs|;
  }

  // ---------------------------------------------------------------------------------
  // Write-back of the elevation answers

  /** One entry of the lookup answer: no `elevation` key, an explicit null, or a height. */
  datatype Reading = Missing | Null | Meters(value: real)

  /** `result.get('elevation', 0)`, with `None` then replaced by 0. */
  function ElevationOf(r: Reading): real {
    match r
    case Missing => 0.0
    case Null => 0.0
    case Meters(m) => m
  }

  /** What the lookup request gives back: a status and the parsed results, or an exception
      raised by the request. */
  datatype Response = Response(status: int, results: seq<Reading>) | RequestFailed

  /** The elevation service, as a function from the locations of a batch to its answer. */
  type Lookup = seq<Config.LatLon> -> Response

  /** The synthetic terrain term of cell (i, j): the sine waves and the random sample. */
  type Noise = (nat, nat) -> real

  /** `locations`: the positions of a batch without their cells. */
  function Locations(batch: seq<Coord>): seq<Config.LatLon> {
    seq(|batch|, t requires 0 <= t < |batch| => (batch[t].latitude, batch[t].longitude))
  }

  /** Batching the coordinates and then taking their (latitude, longitude) pairs gives the
      same request bodies as batching the pairs, and those bodies laid end to end are every
      pair of the list once, in order. */
  lemma LocationsOfBatch(xs: seq<Coord>, b: nat)
    ensures Locations(BatchAt(xs, b)) == BatchAt(Locations(xs), b)
    ensures Joined(Locations(xs), BatchCount(|xs|)) == Locations(xs)
  {
    BatchesPartition(Locations(xs));
  }

  function BatchResponse(lat: real, lon: real, size: nat, post: Lookup, b: nat): Response {
    post(Locations(BatchAt(CoordinateList(lat, lon, size), b)))
  }

  predicate IsOk(r: Response) {
    r.Response? && r.status == 200
  }

  /** Every batch request succeeds with status 200. */
  predicate AllBatchesOk(lat: real, lon: real, size: nat, post: Lookup) {
    forall b :: 0 <= b < BatchCount(size * size) ==> IsOk(BatchResponse(lat, lon, size, post, b))
  }

  /** The value cell (i, j) ends with when every batch succeeds: the answer at its position
      in its batch, or the initial zero when the answer is shorter than the batch (`zip`
      stops at the shorter list). */
  function LoadedCell(lat: real, lon: real, size: nat, post: Lookup, i: nat, j: nat): real {
    var k := i * size + j;
    var r := BatchResponse(lat, lon, size, post, k / Config.BatchSize);
    if r.Response? && k % Config.BatchSize < |r.results| then ElevationOf(r.results[k % Config.BatchSize])
    else 0.0
  }

  /** The answer a cell receives is the one at the position of that cell's own coordinate
      in the request of its batch. */
  lemma {:induction false} LoadedCellMatchesRequest(lat: real, lon: real, size: nat, i: nat, j: nat)
    requires i < size && j < size
    ensures var k := i * size + j;
      var ls := Locations(BatchAt(CoordinateList(lat, lon, size), k / Config.BatchSize));
      k % Config.BatchSize < |ls| &&
      ls[k % Config.BatchSize] == (CoordAt(lat, lon, size, i, j).latitude, CoordAt(lat, lon, size, i, j).longitude)
  {
    CoordinateListRowMajor(lat, lon, size, i, j);
    BatchMember(CoordinateList(lat, lon, size), i * size + j);
  }

  /** A missing or null reading becomes 0, a height is kept. */
  lemma LoadedCellReading(lat: real, lon: real, size: nat, post: Lookup, i: nat, j: nat)
    requires i < size && j < size
    ensures var k := i * size + j;
      var r := BatchResponse(lat, lon, size, post, k / Config.BatchSize);
      r.Response? && k % Config.BatchSize < |r.results| ==>
        match r.results[k % Config.BatchSize]
        case Meters(m) => LoadedCell(lat, lon, size, post, i, j) == m
        case _ => LoadedCell(lat, lon, size, post, i, j) == 0.0
  {
  }

  /** `max(0, elevation + 100)`: the synthetic height of cell (i, j). */
  function FakeCell(noise: Noise, i: nat, j: nat): real {
    var e := noise(i, j) + 100.0;
    if 0.0 >= e then 0.0 else e
  }

  /** The synthetic grid never goes below sea level, and is the raised wave wherever that
      is already above it. */
  lemma FakeCellClamp(noise: Noise, i: nat, j: nat)
    ensures FakeCell(noise, i, j) >= 0.0
    ensures FakeCell(noise, i, j) >= noise(i, j) + 100.0
    ensures noise(i, j) + 100.0 >= 0.0 ==> FakeCell(noise, i, j) == noise(i, j) + 100.0
  {
  }

  /** _generate_fake_elevation_data: a size x size grid of clamped synthetic heights. */
  method GenerateFakeElevationData(size: nat, noise: Noise) returns (grid: array2<real>)
    ensures fresh(grid) && grid.Length0 == size && grid.Length1 == size
    ensures forall i, j :: 0 <= i < size && 0 <= j < size ==> grid[i, j] == FakeCell(noise, i, j)
  {
    grid := new real[size, size]((_, _) => 0.0);
    for i := 0 to size
      invariant forall a, b :: 0 <= a < i && 0 <= b < size ==> grid[a, b] == FakeCell(noise, a, b)
    {
      for j := 0 to size
        invariant forall a, b :: 0 <= a < size && 0 <= b < size && (a < i || (a == i && b < j)) ==>
          grid[a, b] == FakeCell(noise, a, b)
      {
        var elevation := noise(i, j);
        elevation := if 0.0 >= elevation + 100.0 then 0.0 else elevation + 100.0;
        grid[i, j] := elevation;
      }
    }
  }

  /** The batches below `b` have been requested: cells before position `b * 100` hold
      their answers and the rest still hold the initial zero. */
  ghost predicate WrittenUpTo(grid: array2<real>, lat: real, lon: real, size: nat, post: Lookup, bound: nat)
    reads grid
    requires grid.Length0 == size && grid.Length1 == size
  {
    forall i, j :: 0 <= i < size && 0 <= j < size ==>
      grid[i, j] == if i * size + j < bound then LoadedCell(lat, lon, size, post, i, j) else 0.0
  }

  /** The answer cell (i, j) gets from batch `b`, whose answer lists `results`, when the
      cell is entry `t` of that batch. */
  lemma LoadedFromBatch(lat: real, lon: real, size: nat, post: Lookup, b: nat, t: nat,
                        results: seq<Reading>, i: nat, j: nat)
    requires t < Config.BatchSize && i * size + j == b * Config.BatchSize + t
    requires BatchResponse(lat, lon, size, post, b) == Response(200, results)
    ensures LoadedCell(lat, lon, size, post, i, j) == if t < |results| then ElevationOf(results[t]) else 0.0
  {
    DivModOf(b, t, Config.BatchSize);
  }

  /** The zero grid np.zeros returns has no position written yet. */
  lemma NothingWritten(grid: array2<real>, lat: real, lon: real, size: nat, post: Lookup)
    requires grid.Length0 == size && grid.Length1 == size
    requires forall i, j :: 0 <= i < size && 0 <= j < size ==> grid[i, j] == 0.0
    ensures WrittenUpTo(grid, lat, lon, size, post, 0)
  {
    forall i, j | 0 <= i < size && 0 <= j < size
      ensures grid[i, j] == 0.0 && 0 <= i * size + j
    {
    }
  }

  /** Once every position is written, every cell holds its answer. */
  lemma WrittenAll(grid: array2<real>, lat: real, lon: real, size: nat, post: Lookup, bound: nat)
    requires grid.Length0 == size && grid.Length1 == size
    requires WrittenUpTo(grid, lat, lon, size, post, bound) && bound >= size * size
    ensures forall i, j :: 0 <= i < size && 0 <= j < size ==> grid[i, j] == LoadedCell(lat, lon, size, post, i, j)
  {
    forall i, j | 0 <= i < size && 0 <= j < size
      ensures grid[i, j] == LoadedCell(lat, lon, size, post, i, j)
    {
      CellIndex(size, i, j);
    }
  }

  /** Writing answer t of batch b into its cell (ci, cj) extends the written prefix by one
      position. */
  lemma WrittenStep(grid: array2<real>, lat: real, lon: real, size: nat, post: Lookup, b: nat, t: nat,
                    results: seq<Reading>, ci: nat, cj: nat)
    requires grid.Length0 == size && grid.Length1 == size
    requires ci < size && cj < size && ci * size + cj == b * Config.BatchSize + t
    requires t < Config.BatchSize && t < |results|
    requires BatchResponse(lat, lon, size, post, b) == Response(200, results)
    requires grid[ci, cj] == ElevationOf(results[t])
    requires forall i, j :: 0 <= i < size && 0 <= j < size && (i != ci || j != cj) ==>
      grid[i, j] == if i * size + j < b * Config.BatchSize + t then LoadedCell(lat, lon, size, post, i, j) else 0.0
    ensures WrittenUpTo(grid, lat, lon, size, post, b * Config.BatchSize + t + 1)
  {
    var k := b * Config.BatchSize + t;
    forall i, j | 0 <= i < size && 0 <= j < size
      ensures grid[i, j] == if i * size + j < k + 1 then LoadedCell(lat, lon, size, post, i, j) else 0.0
    {
      if i == ci && j == cj {
        LoadedFromBatch(lat, lon, size, post, b, t, results, i, j);
      } else {
        CellIndex(size, i, j);
        CellIndex(size, ci, cj);
        assert i * size + j != k;
      }
    }
  }

  /** Writes the answers of one successful batch, as the `zip` loop does. */
  method WriteBatch(grid: array2<real>, batch: seq<Coord>, results: seq<Reading>,
                    ghost lat: real, ghost lon: real, ghost size: nat, ghost post: Lookup, ghost b: nat)
    requires grid.Length0 == size && grid.Length1 == size
    requires b * Config.BatchSize < size * size
    requires batch == BatchAt(CoordinateList(lat, lon, size), b)
    requires post(Locations(batch)) == Response(200, results)
    requires WrittenUpTo(grid, lat, lon, size, post, b * Config.BatchSize)
    modifies grid
    ensures WrittenUpTo(grid, lat, lon, size, post, b * Config.BatchSize + Config.BatchSize)
  {
    ghost var start := b * Config.BatchSize;
    ghost var xs := CoordinateList(lat, lon, size);
    assert batch == xs[start .. Min(start + Config.BatchSize, size * size)];
    var t := 0;
    while t < |batch| && t < |results|
      invariant 0 <= t <= |batch| && t <= |results|
      invariant WrittenUpTo(grid, lat, lon, size, post, start + t)
    {
      var coord := batch[t];
      ghost var k := start + t;
      assert coord == xs[k];
      CoordinateListAt(lat, lon, size, k);
      ghost var ci, cj := k / size, k % size;
      assert coord.i == ci && coord.j == cj && ci * size + cj == k;
      grid[coord.i, coord.j] := ElevationOf(results[t]);
      WrittenStep(grid, lat, lon, size, post, b, t, results, ci, cj);
      t := t + 1;
    }
    forall i, j | 0 <= i < size && 0 <= j < size
      ensures grid[i, j] == if i * size + j < start + Config.BatchSize then LoadedCell(lat, lon, size, post, i, j) else 0.0
    {
      CellIndex(size, i, j);
      var k := i * size + j;
      if start + t <= k < start + Config.BatchSize {
        LoadedFromBatch(lat, lon, size, post, b, k - start, results, i, j);
      }
    }
  }

  /** The slice the loop takes at batch_start = 100 b is batch b, so the request it sends is
      BatchResponse b; a failed one means not every batch succeeds. */
  lemma BatchRequest(lat: real, lon: real, size: nat, post: Lookup, b: nat,
                     batch: seq<Coord>, response: Response)
    requires b * Config.BatchSize < size * size
    requires batch == CoordinateList(lat, lon, size)[b * Config.BatchSize .. Min(b * Config.BatchSize + Config.BatchSize, size * size)]
    requires response == post(Locations(batch))
    ensures batch == BatchAt(CoordinateList(lat, lon, size), b)
    ensures response == BatchResponse(lat, lon, size, post, b)
    ensures !IsOk(response) ==> !AllBatchesOk(lat, lon, size, post)
  {
    BatchCountSpec(size * size, b);
  }

  /** The batch loop of get_elevation_data: requests of 100 coordinates in order, each
      successful answer written back; it stops at the first failed request. */
  method LoadBatches(grid: array2<real>, coordinates: seq<Coord>, post: Lookup,
                     ghost lat: real, ghost lon: real, ghost size: nat) returns (ok: bool)
    requires grid.Length0 == size && grid.Length1 == size
    requires coordinates == CoordinateList(lat, lon, size)
    requires WrittenUpTo(grid, lat, lon, size, post, 0)
    modifies grid
    ensures ok <==> AllBatchesOk(lat, lon, size, post)
    ensures ok ==> forall i, j :: 0 <= i < size && 0 <= j < size ==> grid[i, j] == LoadedCell(lat, lon, size, post, i, j)
  {
    var batchStart := 0;
    ghost var b := 0;
    while batchStart < |coordinates|
      invariant batchStart == b * Config.BatchSize
      invariant b <= BatchCount(size * size)
      invariant forall c :: 0 <= c < b ==> IsOk(BatchResponse(lat, lon, size, post, c))
      invariant WrittenUpTo(grid, lat, lon, size, post, batchStart)
    {
      BatchCountSpec(size * size, b);
      var batch := coordinates[batchStart .. Min(batchStart + Config.BatchSize, |coordinates|)];
      var locations := Locations(batch);
      var response := post(locations);
      BatchRequest(lat, lon, size, post, b, batch, response);
      if !(response.Response? && response.status == 200) {
        return false;
      }
      WriteBatch(grid, batch, response.results, lat, lon, size, post, b);
      batchStart := batchStart + Config.BatchSize;
      b := b + 1;
    }
    BatchCountSpec(size * size, b);
    WrittenAll(grid, lat, lon, size, post, batchStart);
    return true;
  }

  /** get_elevation_data for a square of `size` samples: when every batch succeeds, each
      cell holds its own answer (0 for a missing or null one); after the first failed batch
      the partial grid is dropped and the synthetic grid is returned instead. */
  method GetElevationData(lat: real, lon: real, size: nat, post: Lookup, noise: Noise)
    returns (grid: array2<real>)
    ensures fresh(grid) && grid.Length0 == size && grid.Length1 == size
    ensures AllBatchesOk(lat, lon, size, post) ==>
      forall i, j :: 0 <= i < size && 0 <= j < size ==> grid[i, j] == LoadedCell(lat, lon, size, post, i, j)
    ensures !AllBatchesOk(lat, lon, size, post) ==>
      forall i, j :: 0 <= i < size && 0 <= j < size ==> grid[i, j] == FakeCell(noise, i, j)
  {
    var coordinates := BuildCoordinates(lat, lon, size);
    grid := new real[size, size]((_, _) => 0.0);
    NothingWritten(grid, lat, lon, size, post);
    var ok := LoadBatches(grid, coordinates, post, lat, lon, size);
    if !ok {
      grid := GenerateFakeElevationData(size, noise);
    }
  }

  // ---------------------------------------------------------------------------------
  // Images

  /** An 8-bit RGB image reduced to what the loader does with it: a plain fill, a pixel
      list in row-major order, or a black canvas with tiles pasted onto it. A fetched tile
      is any of these. */
  datatype Image =
    | Plain(width: nat, height: nat, fill: Rgb8)
    | Pixels(width: nat, height: nat, data: seq<Rgb8>)
    | Canvas(width: nat, height: nat, pastes: seq<Paste>)

  /** `paste(image, (x, y))`: the upper-left corner where a tile goes. */
  datatype Paste = Paste(image: Image, x: int, y: int)

  /** The side of an OpenStreetMap tile in pixels. */
  const TileSize: nat := 256

  // The gradient texture

  const GradientSize: nat := 512

  /** The pixel at column x and row y: `int(100 + x / 512 * 100)`,
      `int(150 + y / 512 * 50)` and `int(80 + (x + y) / 1024 * 100)`, all truncated. */
  function GradientPixel(x: nat, y: nat): Rgb8
    requires x < GradientSize && y < GradientSize
  {
    Rgb8(100 + x * 100 / GradientSize, 150 + y * 50 / GradientSize, 80 + (x + y) * 100 / (2 * GradientSize))
  }

  /** The gradient as an image: 512 x 512 pixels, row by row. */
  function GradientTexture(): Image {
    Pixels(GradientSize, GradientSize, seq(GradientSize * GradientSize, k requires 0 <= k < GradientSize * GradientSize =>
      GradientPixel(k % GradientSize, k / GradientSize)))
  }

  /** _generate_gradient_texture: rows in the outer loop, columns in the inner one. */
  method GenerateGradientTexture() returns (image: Image)
    ensures image == GradientTexture()
  {
    var pixels: seq<Rgb8> := [];
    for y := 0 to GradientSize
      invariant |pixels| == y * GradientSize
      invariant forall k :: 0 <= k < |pixels| ==> pixels[k] == GradientPixel(k % GradientSize, k / GradientSize)
    {
      for x := 0 to GradientSize
        invariant |pixels| == y * GradientSize + x
        invariant forall k :: 0 <= k < |pixels| ==> pixels[k] == GradientPixel(k % GradientSize, k / GradientSize)
      {
        DivModOf(y, x, GradientSize);
        pixels := pixels + [GradientPixel(x, y)];
      }
    }
    image := Pixels(GradientSize, GradientSize, pixels);
  }

  /** The pixel at column x, row y sits at `y * 512 + x`; red runs over [100, 199] from
      left to right, green over [150, 199] from top to bottom and blue over [80, 179]. */
  lemma {:induction false} GradientLayout(x: nat, y: nat)
    requires x < GradientSize && y < GradientSize
    ensures var img := GradientTexture();
      |img.data| == GradientSize * GradientSize && img.data[y * GradientSize + x] == GradientPixel(x, y)
    ensures var p := GradientPixel(x, y);
      100 <= p.r <= 199 && 150 <= p.g <= 199 && 80 <= p.b <= 179
    ensures GradientPixel(0, 0) == Rgb8(100, 150, 80)
    ensures GradientPixel(GradientSize - 1, GradientSize - 1) == Rgb8(199, 199, 179)
  {
    DivModOf(y, x, GradientSize);
  }

  // Combining tiles

  /** Tile (i, j) of one row, pasted at column j and row i of the tile grid. */
  function RowPlacements(row: seq<Image>, i: nat): (ps: seq<Paste>)
    ensures |ps| == |row|
  {
    seq(|row|, j requires 0 <= j < |row| => Paste(row[j], j * TileSize, i * TileSize))
  }

  /** The pastes of the first `n` rows, row by row. */
  function Placements(tiles: seq<seq<Image>>, n: nat): seq<Paste>
    requires n <= |tiles|
  {
    if n == 0 then [] else Placements(tiles, n - 1) + RowPlacements(tiles[n - 1], n - 1)
  }

  /** _combine_tiles: the gradient when there is no tile or the first row is empty;
      otherwise a canvas as wide as the first row and as high as the list of rows, with
      every tile pasted at its place. */
  function CombinedImage(tiles: seq<seq<Image>>): Image {
    if |tiles| == 0 || |tiles[0]| == 0 then GradientTexture()
    else Canvas(|tiles[0]| * TileSize, |tiles| * TileSize, Placements(tiles, |tiles|))
  }

  method CombineTiles(tiles: seq<seq<Image>>) returns (image: Image)
    ensures image == CombinedImage(tiles)
  {
    if |tiles| == 0 || |tiles[0]| == 0 {
      image := GenerateGradientTexture();
      return;
    }
    var pastes: seq<Paste> := [];
    for i := 0 to |tiles|
      invariant pastes == Placements(tiles, i)
    {
      var row := tiles[i];
      for j := 0 to |row|
        invariant pastes == Placements(tiles, i) + RowPlacements(row[..j], i)
      {
        assert RowPlacements(row[..j + 1], i) == RowPlacements(row[..j], i) + [Paste(row[j], j * TileSize, i * TileSize)];
        pastes := pastes + [Paste(row[j], j * TileSize, i * TileSize)];
      }
      assert row[..|row|] == row;
    }
    image := Canvas(|tiles[0]| * TileSize, |tiles| * TileSize, pastes);
  }

  /** In a grid whose first `n` rows all hold `w` tiles, tile (i, j) is paste `i * w + j`,
      at x = j * 256 and y = i * 256. */
  lemma {:induction false} PlacementAt(tiles: seq<seq<Image>>, w: nat, n: nat, i: nat, j: nat)
    requires n <= |tiles| && forall r :: 0 <= r < n ==> |tiles[r]| == w
    requires i < n && j < w
    ensures |Placements(tiles, n)| == n * w
    ensures i * w + j < n * w
    ensures Placements(tiles, n)[i * w + j] == Paste(tiles[i][j], j * TileSize, i * TileSize)
  {
    PlacementsLength(tiles, w, n);
    PlacementsLength(tiles, w, n - 1);
    if i < n - 1 {
      PlacementAt(tiles, w, n - 1, i, j);
      assert i * w + j < (n - 1) * w;
    } else {
      assert i * w + j == (n - 1) * w + j;
    }
  }

  lemma {:induction false} PlacementsLength(tiles: seq<seq<Image>>, w: nat, n: nat)
    requires n <= |tiles| && forall r :: 0 <= r < n ==> |tiles[r]| == w
    ensures |Placements(tiles, n)| == n * w
  {
    if n > 0 {
      PlacementsLength(tiles, w, n - 1);
    }
  }

  /** Two pasted tiles overlap. */
  predicate Overlap(p: Paste, q: Paste) {
    p.x < q.x + TileSize && q.x < p.x + TileSize && p.y < q.y + TileSize && q.y < p.y + TileSize
  }

  /** A pasted tile lies wholly on the canvas. */
  predicate Inside(p: Paste, width: int, height: int) {
    0 <= p.x && p.x + TileSize <= width && 0 <= p.y && p.y + TileSize <= height
  }

  /** For a rectangular grid of tiles the canvas is `w * 256` by `h * 256`, every paste
      lies on it and no two pastes overlap. */
  lemma {:induction false} CombinedLayout(tiles: seq<seq<Image>>, k1: nat, k2: nat)
    requires IsRectangular(tiles) && |tiles| > 0 && |tiles[0]| > 0
    requires k1 < |tiles| * |tiles[0]| && k2 < |tiles| * |tiles[0]|
    ensures var img := CombinedImage(tiles);
      img.Canvas? && img.width == |tiles[0]| * TileSize && img.height == |tiles| * TileSize &&
      |img.pastes| == |tiles| * |tiles[0]| && Inside(img.pastes[k1], img.width, img.height) &&
      (k1 != k2 ==> !Overlap(img.pastes[k1], img.pastes[k2]))
  {
    var h, w := |tiles|, |tiles[0]|;
    RowMajorSplit(k1, h, w);
    RowMajorSplit(k2, h, w);
    var i1, j1, i2, j2 := k1 / w, k1 % w, k2 / w, k2 % w;
    PlacementAt(tiles, w, h, i1, j1);
    PlacementAt(tiles, w, h, i2, j2);
    assert j1 * TileSize + TileSize <= w * TileSize;
    assert i1 * TileSize + TileSize <= h * TileSize;
    if k1 != k2 {
      assert i1 != i2 || j1 != j2;
    }
  }

  // The tile neighbourhood

  /** `Image.new('RGB', (256, 256), (200, 200, 200))`. */
  const Placeholder: Image := Plain(TileSize, TileSize, Rgb8(200, 200, 200))

  /** The tile where one fetch succeeded, the grey placeholder where it failed. */
  function TileOrPlaceholder(fetched: Option<Image>): Image {
    if fetched.Some? then fetched.value else Placeholder
  }

  /** The 3 x 3 neighbourhood of the centre tile: row r holds dy = r - 1 and column c
      holds dx = c - 1. `fetch` stands for _get_tile, the disk cache and the download. */
  function TileGrid(tileX: int, tileY: int, zoom: int, fetch: (int, int, int) -> Option<Image>): seq<seq<Image>> {
    seq(3, r => seq(3, c => TileOrPlaceholder(fetch(tileX + c - 1, tileY + r - 1, zoom))))
  }

  /** get_map_tiles. `center` is the tile _deg2tile computes, `None` where it raises; that
      exception yields the gradient texture. */
  method GetMapTiles(center: Option<(int, int)>, zoom: int, fetch: (int, int, int) -> Option<Image>)
    returns (image: Image)
    ensures center.None? ==> image == GradientTexture()
    ensures center.Some? ==> image == CombinedImage(TileGrid(center.value.0, center.value.1, zoom, fetch))
  {
    if center.None? {
      image := GenerateGradientTexture();
      return;
    }
    var (tileX, tileY) := center.value;
    var tiles: seq<seq<Image>> := [];
    for dy := -1 to 2
      invariant |tiles| == dy + 1
      invariant forall r :: 0 <= r < |tiles| ==> tiles[r] == TileGrid(tileX, tileY, zoom, fetch)[r]
    {
      var row: seq<Image> := [];
      for dx := -1 to 2
        invariant |row| == dx + 1
        invariant forall c :: 0 <= c < |row| ==> row[c] == TileOrPlaceholder(fetch(tileX + c - 1, tileY + dy, zoom))
      {
        var tileData := fetch(tileX + dx, tileY + dy, zoom);
        if tileData.Some? {
          row := row + [tileData.value];
        } else {
          row := row + [Placeholder];
        }
      }
      tiles := tiles + [row];
    }
    assert tiles == TileGrid(tileX, tileY, zoom, fetch);
    image := CombineTiles(tiles);
  }

  /** With a centre tile the result is a 768 x 768 canvas of nine pastes; paste `3 * r + c`
      is the tile at (tile_x + c - 1, tile_y + r - 1), or the grey placeholder where that
      fetch failed, at x = 256 * c and y = 256 * r. */
  lemma MapTilesLayout(tileX: int, tileY: int, zoom: int, fetch: (int, int, int) -> Option<Image>, r: nat, c: nat)
    requires r < 3 && c < 3
    ensures var img := CombinedImage(TileGrid(tileX, tileY, zoom, fetch));
      img.Canvas? && img.width == 768 && img.height == 768 && |img.pastes| == 9 &&
      img.pastes[3 * r + c] == Paste(TileOrPlaceholder(fetch(tileX + c - 1, tileY + r - 1, zoom)), 256 * c, 256 * r)
    ensures fetch(tileX + c - 1, tileY + r - 1, zoom).None? ==>
      CombinedImage(TileGrid(tileX, tileY, zoom, fetch)).pastes[3 * r + c].image == Plain(256, 256, Rgb8(200, 200, 200))
  {
    var tiles := TileGrid(tileX, tileY, zoom, fetch);
    PlacementAt(tiles, 3, 3, r, c);
  }
}
