# A model of the 3D map viewer's core

The viewer fetches an elevation grid and map tiles around a latitude/longitude and shows
the grid as a lit, height-coloured terrain mesh in an OpenGL widget that the user orbits,
pans and zooms with the mouse. This project models, in Dafny, the parts of it that are
logic rather than plumbing:

- `config.dfy` (module `Config`): the settings tables (camera, render and colour settings,
  the height thresholds, the batch size, the default locations) and the two lookups with a
  default entry.
- `terrain.dfy` (module `Terrain`): values the other modules share: elevation grids as
  `seq<seq<real>>`, their minimum and maximum (`np.min` / `np.max`), 3-vectors, 8-bit
  colours and the four height bands with their strict-below thresholds.
- `utils.dfy` (module `Utils`): the grid utilities: the coordinate check, the tile
  neighbourhood, min-max normalisation, 3x3 smoothing, the normal field, the height-map
  texture. Where the source fills a numpy array in nested loops the model is a method
  over `array2` proved against a function on sequences.
- `data_loader.dfy` (module `DataLoader`): the arithmetic of the map data loader: the
  row-major coordinate grid, its partition into requests of 100, the per-cell write-back
  of the answers, the synthetic fallback grid, the 3x3 tile neighbourhood, the tile canvas
  and the gradient texture. The elevation service, the tile fetch and the noise of the
  synthetic grid are function parameters.
- `map_widget.dfy` (module `MapWidget`): the widget as a class `Map3DWidget` whose fields
  are the camera, the last mouse position, the loaded grid and texture, the cached
  display-list handle and the polygon mode. OpenGL becomes recorded state: a display list
  is an entry of a map from handles to meshes (`glGenLists` hands out `nextList`), a mesh
  is the sequence of strips of `(colour, normal, position)` records the builder sends, and
  every repaint appends a `Frame` (camera, mode, scene) to `frames`.

The class invariant `Valid()` says that the camera is in range (distance in [1, 20],
elevation angle in [-89, 89]) and that the only live display list is the cached one and
holds exactly the mesh of the current grid. Every event handler requires and ensures it,
so it holds after any sequence of events; `DrawTerrain` and `PaintGL` show that what is
drawn is always the mesh of the most recent grid and that a grid is built at most once per
load. `cleanup` deletes the cached list but keeps its handle
(map_widget.py:301-304), so `Cleanup` does not promise `Valid()` afterwards.

Numbers are exact reals. Python's `//` by a positive constant is Dafny's `/`; the
`astype(np.uint8)` and `int(...)` truncations are written as `.Floor` and integer
division on non-negative values.

## Model

| member | source | states |
|---|---|---|
| Config.GetTerrainQualitySettings | config.py:111-130 | the exact entry for "low" and "high", and the medium entry (50, 0.1, 14) for every other key |
| Config.GetLocationCoordinates | config.py:132-134 | the named pair for a known name, Istanbul (41.0082, 28.9784) otherwise, and always one of the default locations |
| Config.QualityIncreases | config.py:113-129 | terrain size, height scale and tile zoom each strictly increase from low to medium to high |
| Config.MediumMatchesRenderSettings | config.py:23-28 | the default quality "medium" carries RENDER_SETTINGS' terrain size 50 and height scale 0.1, and an unknown key falls back to it |
| Config.SettingsWellFormed | config.py:31-56 | 0 < 0.3 < 0.6 < 0.8 < 1; MIN_DISTANCE < DEFAULT_DISTANCE < MAX_DISTANCE; the four band colours have channels in [0, 1] |
| Terrain.RowMin | utils.py:88 | the minimum of a row is one of its entries and no entry is below it |
| Terrain.RowMax | utils.py:89 | the maximum of a row is one of its entries and no entry is above it |
| Terrain.GridMin | utils.py:88 | np.min: a sample of the grid that no sample is below |
| Terrain.GridMax | utils.py:89 | np.max: a sample of the grid that no sample is above |
| Terrain.FlatMeansConstant | utils.py:91-92 | when the minimum equals the maximum every sample equals the minimum |
| Terrain.BandOf | utils.py:165-172 | water iff below 0.3, low land iff in [0.3, 0.6), mid land iff in [0.6, 0.8), high land iff at or above 0.8 |
| Terrain.BandMonotone | utils.py:165-172 | a higher normalised height never falls in a lower band |
| Terrain.BandBoundaries | utils.py:165-172 | a value exactly at a threshold belongs to the band above it; 0 is water and 1 is high land |
| Terrain.BandColor | config.py:42-46 | each band's colour is a proper colour (channels in [0, 1]) |
| Terrain.BandColorInjective | config.py:42-46 | distinct bands have distinct colours |
| Terrain.DivModOf | map_data_loader.py:43-51 | proof helper for Terrain.CellIndex and DataLoader.CoordinateListRowMajor (integer division, not a source operation): row-major position q * n + r (0 <= r < n) has quotient q and remainder r |
| Terrain.RowMajorSplit | map_data_loader.py:43-51 | proof helper for Terrain.CellIndex and DataLoader.CoordinateListRowMajor (integer division, not a source operation): a position below rows * cols splits into a row below rows and a column below cols |
| Terrain.DivModBelow | map_data_loader.py:43-51 | proof helper for Terrain.CellIndex and DataLoader.CoordinateListRowMajor (integer division, not a source operation): a position below n * n splits into a row and a column below n |
| Utils.ValidateCoordinates | utils.py:20-31 | true iff -90 <= lat <= 90 and -180 <= lon <= 180 |
| Utils.ValidateBoundsInclusive | utils.py:25-29 | the bounds themselves are accepted and anything beyond them by any margin is rejected |
| Utils.LocationsAreValid | config.py:69-78 | every default location (and so every lookup result) passes the coordinate check |
| Utils.OffsetColumn | utils.py:81-82 | the tiles of one x offset: one per y offset |
| Utils.OffsetColumns | utils.py:80-82 | reference definition of the tiles of the first m x offsets, dx outer and dy inner; properties in Utils.OffsetColumnsLength, OffsetColumnsAt |
| Utils.OffsetColumnsLength | utils.py:80-82 | m x offsets give m * n tiles |
| Utils.OffsetColumnsAt | utils.py:80-82 | position a * n + b holds the tile a columns and b rows from the corner |
| Utils.CalculateTileBounds | utils.py:72-84 | the loop appends exactly the tile list TileBounds describes |
| Utils.TileBoundsCount | utils.py:77-84 | (2 * (tile_count // 2) + 1)^2 tiles for tile_count >= 0, none for a negative count (the range is empty); 9 for the default count, the centre tile in the middle |
| Utils.TileBoundsNear | utils.py:78-82 | every tile is within tile_count // 2 of the centre on both axes |
| Utils.TileBoundsAt | utils.py:80-82 | the tile with offsets (dx, dy) is at position (dx + h) * n + (dy + h): dx in the outer loop, dy in the inner |
| Utils.TileBounds | utils.py:77-84 | reference definition of the tile list (offsets dx outer, dy inner); properties in Utils.TileBoundsCount, TileBoundsAt, TileBoundsNear, TileBoundsDistinct |
| Utils.TileBoundsDistinct | utils.py:80-82 | no tile appears twice |
| Utils.Rescale | utils.py:91-94 | reference definition of (v - min) / (max - min), 0 on a flat range; properties in Utils.RescaleRange, RescaleOrder, NormalizeFlat, NormalizeRange |
| Utils.RescaleRange | utils.py:94 | for lo < hi a value of [lo, hi] rescales into [0, 1], to 0 exactly at lo and to 1 exactly at hi |
| Utils.RescaleOrder | utils.py:94 | rescaling preserves order |
| Utils.Normalize | utils.py:86-94 | the result has the shape of the input |
| Utils.NormalizeFlat | utils.py:91-92 | a flat grid normalises to all zeros |
| Utils.NormalizeRange | utils.py:94 | otherwise every value is in [0, 1], 0 exactly at the minimum cells and 1 exactly at the maximum cells |
| Utils.NormalizeMonotone | utils.py:86-94 | normalisation preserves the order of samples |
| Utils.Region | utils.py:110 | the neighbourhood of an interior cell is 3 x 3 |
| Utils.SmoothStep | utils.py:105-119 | one pass keeps the shape |
| Utils.SmoothN | utils.py:100-119 | any number of passes keeps the shape |
| Utils.CopyRow | utils.py:114-115 | dst[dr, :] = src[sr, :] and every other row unchanged |
| Utils.CopyColumn | utils.py:116-117 | dst[:, dc] = src[:, sc] and every other column unchanged |
| Utils.SmoothInterior | utils.py:108-111 | every interior cell becomes the kernel-weighted sum of its 3 x 3 neighbourhood, border cells untouched |
| Utils.SmoothPass | utils.py:105-119 | one pass: a new array equal to SmoothStep of the previous grid |
| Utils.SmoothElevationData | utils.py:96-121 | the result is a fresh array equal to the grid after max(iterations, 0) passes; the input is not modified (0 passes give a copy) |
| Utils.SmoothKeepsBorder | utils.py:114-119 | after any number of passes every border cell equals the input's |
| Utils.WeightedSum | utils.py:102-111 | reference definition of np.sum(region * kernel); properties in Utils.SmoothConstant and Utils.WeightedSumBounded |
| Utils.SmoothConstant | utils.py:102-111 | the kernel weights sum to 1, so a constant grid is a fixed point |
| Utils.WeightedSumBounded | utils.py:102-111 | a kernel-weighted sum lies between the least and greatest sample |
| Utils.StepBounded | utils.py:105-119 | one pass keeps every sample inside any bounds the input respects |
| Utils.SmoothStaysBounded | utils.py:100-121 | so does any number of passes |
| Utils.WithRow | utils.py:147-148 | a row copy keeps the shape |
| Utils.WithColumn | utils.py:149-150 | a column copy keeps the shape |
| Utils.InteriorNormals | utils.py:126-144 | the interior pass yields a rows x cols field |
| Utils.NormalField | utils.py:123-152 | the returned field is rows x cols |
| Utils.CalculateNormals | utils.py:123-152 | the loops and border copies produce exactly NormalField |
| Utils.RawNormal | utils.py:131-135 | reference definition of the raw interior normal (-dx * scale, -dy * scale, 2); properties in Utils.NormalDirection |
| Utils.NormalDirection | utils.py:131-144 | an interior normal is the raw (-dx * scale, -dy * scale, 2) with z = 2, so its length is positive and the zero-length fallback never runs |
| Utils.NormalBorders | utils.py:147-150 | rows 0 and -1 copy rows 1 and -2 (away from the corner columns), columns 0 and -1 copy columns 1 and -2 |
| Utils.NormalFieldFromInterior | utils.py:147-150 | with at least 3 rows and columns every cell holds the raw normal of its nearest interior cell, the corner (0, 0) that of (1, 1) |
| Utils.NormalFieldDegenerate | utils.py:126-150 | with exactly 2 rows or 2 columns there is no interior cell and every normal stays zero |
| Utils.ToByte | utils.py:174 | colour * 255 truncated: the byte is the integer part |
| Utils.ColorBytes | utils.py:163-174 | reference definition of a unit colour converted to bytes channel by channel; properties in Utils.BandBytes |
| Utils.TextureColor | utils.py:163-174 | reference definition of the texture pixel of cell (i, j): the band colour of its normalised height, in bytes; properties in Utils.GenerateHeightmapTexture, BandBytes, FlatTextureIsWater, ExtremesOfTexture |
| Utils.GenerateHeightmapTexture | utils.py:154-174 | a fresh rows x cols array holding at each cell the band colour of its normalised height, in bytes |
| Utils.BandBytes | utils.py:165-174 | the four texture colours are (51, 102, 204), (51, 178, 51), (153, 102, 51), (229, 229, 229) |
| Utils.FlatTextureIsWater | utils.py:156-166 | a flat grid is all water |
| Utils.ExtremesOfTexture | utils.py:156-172 | in a non-flat grid the lowest cells are water and the highest cells are high land |
| DataLoader.FractionUnit | map_data_loader.py:37-38 | k / d lies in [0, 1] for k <= d, is 0 at 0 and 1 at d |
| DataLoader.Linspace | map_data_loader.py:37-38 | reference definition of sample k of np.linspace; properties in DataLoader.LinspaceBounds |
| DataLoader.HalfSpan | map_data_loader.py:34-35 | reference definition of half_size = 0.01 * size / 2; properties in DataLoader.CoordinatesInSquare |
| DataLoader.LinspaceBounds | map_data_loader.py:37-38 | np.linspace starts at start, ends at stop (n >= 2) and stays between them |
| Terrain.RowStartBelow | map_data_loader.py:43-51 | proof helper for Terrain.CellIndex (integer arithmetic, not a source operation): row i < size ends inside the size x size list |
| Terrain.CellIndex | map_data_loader.py:43-51 | cell (i, j) is at position i * size + j, inside the list, and that position splits back into (i, j) |
| DataLoader.CoordAt | map_data_loader.py:44-51 | reference definition of the entry for cell (i, j): lats[i], lons[j] and the cell; properties in DataLoader.CoordinateListRowMajor, CoordinatesInSquare |
| DataLoader.CoordinateRow | map_data_loader.py:45-51 | the inner loop's entries for latitude index i: one per longitude index |
| DataLoader.CoordinateRows | map_data_loader.py:44-51 | reference definition of the entries of the first m latitude indices, row after row; properties in DataLoader.CoordinateRowsLength, CoordinateRowsAt |
| DataLoader.CoordinateList | map_data_loader.py:43-51 | reference definition of the coordinate list; properties in DataLoader.CoordinateListRowMajor and DataLoader.CoordinatesInSquare, built by DataLoader.BuildCoordinates |
| DataLoader.BuildCoordinates | map_data_loader.py:43-51 | the nested loop builds exactly CoordinateList |
| DataLoader.CoordinateRowsLength | map_data_loader.py:44-51 | m outer iterations of size appends give m * size entries |
| DataLoader.CoordinateRowsAt | map_data_loader.py:44-51 | among the first m rows, cell (a, b) is at position a * size + b |
| DataLoader.CoordinateListRowMajor | map_data_loader.py:43-51 | size * size entries, entry i * size + j holding latitude i, longitude j and cell (i, j) |
| DataLoader.CoordinateListAt | map_data_loader.py:43-51 | position k of the list holds cell (k // size, k % size) |
| DataLoader.CoordinatesInSquare | map_data_loader.py:34-38 | every sample lies within half_size of the centre on both axes |
| DataLoader.BatchCount | map_data_loader.py:56 | reference definition of len(range(0, n, 100)); properties in DataLoader.BatchCountSpec |
| DataLoader.BatchAt | map_data_loader.py:56-57 | reference definition of coordinates[100 b : 100 b + 100]; properties in DataLoader.BatchSizes, BatchMember, JoinedPrefix, BatchesPartition |
| DataLoader.BatchCountSpec | map_data_loader.py:56 | batch b exists iff its start b * 100 is below the list length |
| DataLoader.BatchSizes | map_data_loader.py:56-57 | every batch holds between 1 and 100 entries |
| DataLoader.BatchMember | map_data_loader.py:56-57 | entry k is entry k % 100 of batch k // 100 |
| DataLoader.JoinedPrefix | map_data_loader.py:56-57 | the first m batches, concatenated, are the first min(100 m, n) entries |
| DataLoader.BatchesPartition | map_data_loader.py:54-57 | all batches, concatenated in order, are the coordinate list: every entry in exactly one batch |
| DataLoader.Locations | map_data_loader.py:60-61 | reference definition of the request body of a batch; properties in DataLoader.LocationsOfBatch |
| DataLoader.LocationsOfBatch | map_data_loader.py:56-61 | the locations of batch b are batch b of the locations of the whole list, and the request bodies laid end to end send every (latitude, longitude) pair once, in order |
| DataLoader.ElevationOf | map_data_loader.py:73-76 | reference definition of result.get('elevation', 0) with None read as 0; properties in DataLoader.LoadedCellReading |
| DataLoader.LoadedCell | map_data_loader.py:56-77 | reference definition of the value a successful load writes to cell (i, j); properties in DataLoader.LoadedCellMatchesRequest, LoadedCellReading, WrittenAll |
| DataLoader.LoadedCellMatchesRequest | map_data_loader.py:60-77 | the answer written to cell (i, j) is the one at the position of that cell's own coordinate in its request |
| DataLoader.LoadedCellReading | map_data_loader.py:73-77 | a height is written as it is; a missing or null elevation becomes 0 |
| DataLoader.FakeCell | map_data_loader.py:116 | reference definition of max(0, elevation + 100); properties in DataLoader.FakeCellClamp |
| DataLoader.FakeCellClamp | map_data_loader.py:116 | the synthetic height is never below 0, and equals elevation + 100 whenever that is not negative |
| DataLoader.GenerateFakeElevationData | map_data_loader.py:96-119 | a fresh size x size grid whose every cell is max(0, noise + 100) |
| DataLoader.LoadedFromBatch | map_data_loader.py:73-77 | a 200 answer determines the final value of each cell of its batch; cells past the end of a short answer stay 0 |
| DataLoader.WrittenAll | map_data_loader.py:56-77 | once every batch is written, every cell holds its loaded value |
| DataLoader.NothingWritten | map_data_loader.py:40 | the np.zeros grid has no position written yet |
| DataLoader.WrittenStep | map_data_loader.py:73-77 | writing answer t of batch b into its own cell extends the written prefix by one position |
| DataLoader.WriteBatch | map_data_loader.py:70-77 | writing one successful batch extends the written prefix by 100 positions |
| DataLoader.BatchRequest | map_data_loader.py:56-67 | the slice taken at batch_start = 100 b is batch b and its request is that batch's; one failed request means not every batch succeeds |
| DataLoader.LoadBatches | map_data_loader.py:56-88 | the loop reports success iff every batch answers 200, and on success every cell holds its loaded value |
| DataLoader.GetElevationData | map_data_loader.py:27-94 | a fresh size x size grid: every cell's loaded value when every request answers 200, the synthetic grid when any request fails or answers otherwise |
| DataLoader.GradientPixel | map_data_loader.py:230-232 | reference definition of the pixel at (x, y); properties in DataLoader.GradientLayout |
| DataLoader.GradientTexture | map_data_loader.py:227-235 | reference definition of the 512 x 512 gradient image, row by row; properties in DataLoader.GradientLayout, built by DataLoader.GenerateGradientTexture |
| DataLoader.GenerateGradientTexture | map_data_loader.py:221-236 | the loops build exactly GradientTexture |
| DataLoader.GradientLayout | map_data_loader.py:227-233 | 512 x 512 pixels row by row; red in [100, 199], green in [150, 199], blue in [80, 179]; corners (100, 150, 80) and (199, 199, 179) |
| DataLoader.RowPlacements | map_data_loader.py:213-217 | one paste per tile of the row |
| DataLoader.CombinedImage | map_data_loader.py:199-219 | reference definition of the combined canvas and its pastes; properties in DataLoader.CombinedLayout, built by DataLoader.CombineTiles |
| DataLoader.CombineTiles | map_data_loader.py:197-219 | the loops build exactly CombinedImage |
| DataLoader.Placements | map_data_loader.py:212-217 | reference definition of the pastes of the first n rows, in loop order; properties in DataLoader.PlacementAt, PlacementsLength, CombinedLayout |
| DataLoader.PlacementAt | map_data_loader.py:212-217 | tile (i, j) is pasted at (j * 256, i * 256), paste i * w + j |
| DataLoader.PlacementsLength | map_data_loader.py:212-217 | a rectangular grid of tiles gives one paste per tile |
| DataLoader.CombinedLayout | map_data_loader.py:202-217 | for a rectangular non-empty grid the canvas is len(tiles[0]) * 256 by len(tiles) * 256 and the paste rectangles lie inside it and are pairwise disjoint |
| DataLoader.TileGrid | map_data_loader.py:134-148 | reference definition of the 3 x 3 tile rows (dy outer, dx inner, the grey placeholder for a failed fetch); properties in DataLoader.MapTilesLayout |
| DataLoader.TileOrPlaceholder | map_data_loader.py:141-146 | reference definition of the fetched tile or the grey 256 x 256 placeholder; properties in DataLoader.MapTilesLayout |
| DataLoader.GetMapTiles | map_data_loader.py:121-157 | the combined 3 x 3 neighbourhood, or the gradient when the tile computation raises |
| DataLoader.MapTilesLayout | map_data_loader.py:130-151 | a 768 x 768 canvas of 9 pastes, paste 3r + c being the tile at (x + c - 1, y + r - 1) at (256 c, 256 r), or the grey 256 x 256 placeholder when that fetch failed |
| MapWidget.Clamp | map_widget.py:261 | max(lo, min(hi, v)): inside [lo, hi], v itself when v is inside, the nearer bound otherwise |
| MapWidget.StartingPosesInRange | map_widget.py:19-23 | the home pose (5, -30, 0, 0, 0) and the loaded pose (distance 8) respect the camera limits |
| MapWidget.HeightRatio | map_widget.py:170-184 | reference definition of the colour ratio with height_range 1 for a flat grid; properties in MapWidget.RatioIsRescale, MeshColors, FlatMeshIsWater |
| MapWidget.RatioIsRescale | map_widget.py:168-184 | for heights inside the grid's range the widget's colour ratio is normalize_elevation_data's value |
| MapWidget.VertexNormal | map_widget.py:196-215 | reference definition of the normal before normalisation; properties in MapWidget.MeshNormals |
| MapWidget.VertexPosition | map_widget.py:179-181 | reference definition of the vertex position; properties in MapWidget.MeshGeometry |
| MapWidget.MeshVertex | map_widget.py:179-217 | reference definition of the record sent for one cell; properties in MapWidget.MeshGeometry, MeshColors, MeshNormals |
| MapWidget.StripOf | map_widget.py:173-219 | reference definition of strip i; properties in MapWidget.StripVertex, MeshLayout, built by MapWidget.EmitStrip |
| MapWidget.TerrainMesh | map_widget.py:165-221 | reference definition of the compiled display list; properties in MapWidget.MeshLayout, built by MapWidget.EmitTerrainStrips |
| MapWidget.StripVertex | map_widget.py:176-177 | vertex 2j + d of strip i is cell (i + d, j) |
| MapWidget.EmitStrip | map_widget.py:174-219 | the loops over columns and over rows i, i + 1 compute each vertex's position, colour and normal and emit exactly StripOf: each column's row i and row i + 1 in order |
| MapWidget.EmitTerrainStrips | map_widget.py:165-221 | the loops emit exactly TerrainMesh of the grid |
| MapWidget.MeshLayout | map_widget.py:173-181 | rows - 1 strips of 2 * cols vertices in the order (i, 0), (i + 1, 0), (i, 1), (i + 1, 1), ... |
| MapWidget.MeshGeometry | map_widget.py:179-181 | x and y lie in [-2, 2], z is a tenth of the height; the corners of the grid go to the corners of the square |
| MapWidget.MeshColors | map_widget.py:168-193 | the ratio is the normalised height, in [0, 1]; each vertex has its band's colour, the same band as the height-map texture |
| MapWidget.FlatMeshIsWater | map_widget.py:170-187 | with range 1 for a flat grid every ratio is 0, so every vertex is water-coloured |
| MapWidget.MeshNormals | map_widget.py:196-215 | interior normals have z = 4 / max(rows, cols) > 0, so the length is positive; border normals are (0, 0, 1) |
| MapWidget.Map3DWidget.Valid | map_widget.py:149-163 | class invariant: camera distance in [1, 20], elevation angle in [-89, 89], and the only live list is the cached one holding the current grid's mesh; required and ensured by every event handler |
| MapWidget.Map3DWidget.constructor | map_widget.py:15-36 | the home camera, no mouse position, no grid, no cached list, solid mode |
| MapWidget.Map3DWidget.MousePress | map_widget.py:242-244 | the press position is stored |
| MapWidget.Map3DWidget.MouseMove | map_widget.py:246-270 | without a stored position only records it; left drag: rotation_y += dx * 0.5 unclamped and rotation_x clamped to [-89, 89]; right drag without left: pans the target by 0.01 per pixel; the distance never changes |
| MapWidget.Map3DWidget.Wheel | map_widget.py:272-280 | distance = clamp(distance - delta * 0.001, 1, 20) |
| MapWidget.Map3DWidget.KeyPress | map_widget.py:282-299 | R sets the home camera whatever it was (so it is idempotent), W wireframe and S solid whatever the mode was, other keys nothing |
| MapWidget.Map3DWidget.LoadTerrainData | map_widget.py:223-240 | stores the grid and texture, deletes the cached list, moves the camera to the loaded pose |
| MapWidget.Map3DWidget.GenerateTerrainDisplayList | map_widget.py:157-163 | nothing without a grid; otherwise a new handle holding the grid's mesh |
| MapWidget.Map3DWidget.DrawTerrain | map_widget.py:149-155 | a cached list is reused unchanged; otherwise one is built; what is called is the current grid's mesh |
| MapWidget.Map3DWidget.PaintGL | map_widget.py:87-108 | appends one frame through the current camera and mode, showing the current grid's mesh or the placeholder |
| MapWidget.Map3DWidget.Cleanup | map_widget.py:301-304 | deletes the cached list and keeps the handle |
| MapWidget.DragRight | map_widget.py:255-261 | a 1000-pixel left drag turns the camera by 500 degrees horizontally, unclamped |
| MapWidget.TiltLimit | map_widget.py:258-261 | a long downward drag stops the elevation angle at 89 |
| MapWidget.ReloadAndRepaint | map_widget.py:223-240 | after a reload the next frame shows the new grid from the loaded pose and only one list is alive |
| MapWidget.RepaintReusesList | map_widget.py:151-155 | two repaints of one grid build its mesh once |
| MapWidget.RepaintWithoutGrid | map_widget.py:101-108 | a repaint without a grid builds no list, allocates no handle and shows the placeholder from the home camera |

## Left out

- Utils.ValidateCoordinates: arguments are reals; the isinstance guard of utils.py:22-23, which rejects None, strings and numpy scalars such as numpy.int64 or numpy.float32 even when in range, has no counterpart.
- OpenGL and GLU themselves (`initializeGL`, `resizeGL`, lighting, `glPolygonMode`): only their effect on what is drawn is recorded. `draw_grid` and `draw_placeholder` draw fixed geometry and are a `PlaceholderScene` value or nothing.
- The eye position in paintGL (map_widget.py:93-99) is trigonometry of the camera fields; a frame records the camera fields instead.
- The division of each normal by its length (map_widget.py:206-211, utils.py:138-140): square roots are not modelled, so the records hold the raw vectors, and the lemmas show the length is positive.
- MapWidget.Map3DWidget.PaintGL, MapWidget.Map3DWidget.DrawTerrain: require a grid with at least one sample and, whenever it has at least two rows, at least two columns (a single row of any width is accepted: `range(rows - 1)` is then empty); the source raises there (np.min on an empty array, a division by `cols - 1`) half-way through compiling a list, which is not modelled.
- MapWidget.Map3DWidget.GenerateTerrainDisplayList: requires that no list is cached, the only way draw_terrain calls it.
- MapWidget.Map3DWidget.Cleanup: keeps the stale handle as the source does, so the class invariant is not promised afterwards.
- The QTimer repaint loop and `self.update()`: repaints are explicit `PaintGL` calls.
- Utils.Normalize, Utils.GenerateHeightmapTexture, Utils.SmoothElevationData, Utils.CalculateNormals: the source's behaviour on empty, non-rectangular or too-small grids (numpy errors) is excluded by the preconditions.
- Utils.ToByte: the float rounding of `0.2 * 255` etc. is taken exact, giving 51; IEEE doubles give the same bytes for the four colours.
- Utils.CalculateTileBounds: starts from the centre tile; `lat_lon_to_tile` (tan, asinh) is not modelled.
- DataLoader.GetMapTiles: `_deg2tile` (trigonometry) becomes the `center` parameter, `None` standing for the exception it may raise; `_get_tile` with its disk cache, HTTP download and PIL decode becomes the `fetch` parameter. Every fetched tile is pasted (a PIL image is always truthy).
- DataLoader.GetElevationData: the HTTP session, JSON decoding and `time.sleep` become the `post` parameter; an exception while building the grid outside a request (map_data_loader.py:92-94) is not modelled.
- DataLoader.GenerateFakeElevationData: the sine waves and `np.random.normal` are the `noise` parameter.
- DataLoader.GenerateGradientTexture: `int(100 + x / 512 * 100)` is computed in floating point in the source and as exact integer division here; both truncate the same non-negative value.
- The texture argument of `load_terrain_data` is stored but never read by the widget, so it is an opaque `Image` value.
- `get_satellite_imagery` and `get_terrain_data_advanced` are thin wrappers over the modelled operations and are not part of this model.
- `haversine_distance`, `tile_to_lat_lon`, `deg2rad`, `rad2deg`: trigonometry, not called by the modelled core.
- `ensure_cache_directory`, `clean_old_cache_files` and the logging setup: file system I/O.
- main.py (Qt window, worker thread and signals) and setup_script.py (installer) are not part of this model.
- Negative grid sizes: sizes are `nat`.
