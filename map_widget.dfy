/** The 3D terrain view: an orbit camera driven by mouse, wheel and key events, and a
    display-list cache holding the triangle-strip mesh built from the current elevation
    grid. OpenGL calls become recorded state: each vertex of the mesh is a record of the
    colour, normal and position the builder sends, a display list is an entry of a map
    from handles to meshes, and each repaint appends what it drew to a list of frames. */
module MapWidget {
  import opened Terrain
  import Config
  import Utils
  import DataLoader

  // ---------------------------------------------------------------------------------
  // Events

  /** A mouse position in widget pixels. */
  datatype Point = Point(x: int, y: int)

  /** The buttons held during a mouse move. */
  datatype Buttons = Buttons(left: bool, right: bool)

  datatype Key = KeyR | KeyW | KeyS | OtherKey

  /** The polygon mode: filled or outlined triangles. */
  datatype RenderMode = Solid | Wireframe

  /** `max(lo, min(hi, v))`. */
  function Clamp(lo: real, hi: real, v: real): (r: real)
    requires lo <= hi
    ensures lo <= r <= hi
    ensures lo <= v <= hi ==> r == v
    ensures v < lo ==> r == lo
    ensures v > hi ==> r == hi
  {
    var m := if hi <= v then hi else v;
    if lo >= m then lo else m
  }

  /** The limit on the camera's elevation angle, in degrees. */
  const MaxTilt: real := 89.0

  /** `move_speed` of a right drag, in scene units per pixel. */
  const PanSpeed: real := 0.01

  /** The distance load_terrain_data moves the camera to. */
  const LoadedDistance: real := 8.0

  datatype Camera = Camera(distance: real, rotationX: real, rotationY: real, targetX: real, targetY: real)

  /** What the constructor and the R key set. */
  const HomeCamera: Camera := Camera(Config.DefaultDistance, Config.DefaultRotationX, Config.DefaultRotationY, 0.0, 0.0)

  /** What load_terrain_data sets. */
  const LoadedCamera: Camera := Camera(LoadedDistance, Config.DefaultRotationX, Config.DefaultRotationY, 0.0, 0.0)

  /** The camera limits: distance in [1, 20], elevation angle in [-89, 89]. */
  predicate InRange(c: Camera) {
    Config.MinDistance <= c.distance <= Config.MaxDistance && -MaxTilt <= c.rotationX <= MaxTilt
  }

  /** Both starting poses respect the limits, and they differ only in distance. */
  lemma StartingPosesInRange()
    ensures InRange(HomeCamera) && InRange(LoadedCamera)
    ensures HomeCamera == Camera(5.0, -30.0, 0.0, 0.0, 0.0)
    ensures LoadedCamera == HomeCamera.(distance := 8.0)
  {
  }

  // ---------------------------------------------------------------------------------
  // The terrain mesh

  /** One `glColor3f` / `glNormal3f` / `glVertex3f` triple of the builder. */
  datatype VertexRecord = VertexRecord(color: Config.Rgb, normal: Vec3, position: Vec3)

  /** The vertices between one `glBegin(GL_TRIANGLE_STRIP)` and its `glEnd`. */
  type Strip = seq<VertexRecord>

  /** The contents of one display list. */
  type Mesh = seq<Strip>

  /** The grids the builder gets through: np.min and np.max need a sample, and as soon as
      there is a strip (two rows) the x coordinate divides by `cols - 1`. */
  predicate MeshBuildable(g: Grid) {
    NonEmptyGrid(g) && (|g| >= 2 ==> Cols(g) >= 2)
  }

  /** The colour ratio of a height: its distance above the minimum over the height range,
      the range taken as 1 when the grid is flat. */
  function HeightRatio(h: real, lo: real, hi: real): real {
    var range := if hi != lo then hi - lo else 1.0;
    (h - lo) / range
  }

  /** For a height inside the grid's range, the widget's ratio is the normalised height of
      normalize_elevation_data. */
  lemma RatioIsRescale(h: real, lo: real, hi: real)
    requires lo <= h <= hi
    ensures HeightRatio(h, lo, hi) == Utils.Rescale(h, lo, hi)
  {
  }

  /** Cell (row, j) lies strictly inside the grid. */
  predicate IsInteriorCell(g: Grid, row: nat, j: nat) {
    0 < row < |g| - 1 && 0 < j < Cols(g) - 1
  }

  /** The normal sent for cell (row, j) before normalisation: central differences scaled by
      twice the height scale, and `4 / max(rows, cols)` upwards; (0, 0, 1) on the border. */
  function VertexNormal(g: Grid, row: nat, j: nat): Vec3
    requires IsRectangular(g) && row < |g| && j < Cols(g)
  {
    if IsInteriorCell(g, row, j) then
      var dx := g[row][j + 1] - g[row][j - 1];
      var dy := g[row + 1][j] - g[row - 1][j];
      var longest := if |g| >= Cols(g) then |g| else Cols(g);
      Vec3(-dx * Config.HeightScale * 2.0, -dy * Config.HeightScale * 2.0, 4.0 / (longest as real))
    else Vec3(0.0, 0.0, 1.0)
  }

  /** The position of cell (row, j): the grid spread over [-2, 2] on both axes, the height
      scaled by 0.1. */
  function VertexPosition(g: Grid, row: nat, j: nat): Vec3
    requires IsRectangular(g) && 2 <= |g| && 2 <= Cols(g) && row < |g| && j < Cols(g)
  {
    Vec3((DataLoader.Fraction(j, Cols(g) - 1) - 0.5) * 4.0,
         (DataLoader.Fraction(row, |g| - 1) - 0.5) * 4.0,
         g[row][j] * Config.HeightScale)
  }

  /** The record the builder emits for cell (row, j), given the grid's lowest and highest
      samples. */
  function MeshVertex(g: Grid, lo: real, hi: real, row: nat, j: nat): VertexRecord
    requires MeshBuildable(g) && 2 <= |g| && row < |g| && j < Cols(g)
  {
    VertexRecord(BandColor(BandOf(HeightRatio(g[row][j], lo, hi))),
                 VertexNormal(g, row, j), VertexPosition(g, row, j))
  }

  /** Strip i: for each column, the vertex of row i and then that of row i + 1. */
  function StripOf(g: Grid, lo: real, hi: real, i: nat): Strip
    requires MeshBuildable(g) && i + 1 < |g|
  {
    seq(2 * Cols(g), t requires 0 <= t < 2 * Cols(g) => MeshVertex(g, lo, hi, i + t % 2, t / 2))
  }

  /** The display list generate_terrain_display_list compiles: one strip per pair of
      neighbouring rows, coloured by the grid's own minimum and maximum. */
  function TerrainMesh(g: Grid): Mesh
    requires MeshBuildable(g)
  {
    var lo, hi := GridMin(g), GridMax(g);
    seq(|g| - 1, i requires 0 <= i < |g| - 1 => StripOf(g, lo, hi, i))
  }

  /** Vertex 2 * j + d of strip i is cell (i + d, j). */
  lemma {:induction false} StripVertex(g: Grid, lo: real, hi: real, i: nat, j: nat, d: nat)
    requires MeshBuildable(g) && i + 1 < |g| && j < Cols(g) && d < 2
    ensures 2 * j + d < |StripOf(g, lo, hi, i)|
    ensures StripOf(g, lo, hi, i)[2 * j + d] == MeshVertex(g, lo, hi, i + d, j)
  {
    DivModOf(j, d, 2);
  }

  /** One strip: columns in the outer loop, rows i and i + 1 in the inner one; each vertex
      gets its position, band colour and normal. */
  method EmitStrip(g: Grid, i: nat, minHeight: real, maxHeight: real) returns (strip: Strip)
    requires MeshBuildable(g) && i + 1 < |g|
    ensures strip == StripOf(g, minHeight, maxHeight, i)
  {
    ghost var s := StripOf(g, minHeight, maxHeight, i);
    var rows, cols := |g|, |g[0]|;
    strip := [];
    for j := 0 to cols
      invariant strip == s[..2 * j]
    {
      for row := i to i + 2
        invariant strip == s[..2 * j + (row - i)]
      {
        var x := (DataLoader.Fraction(j, cols - 1) - 0.5) * 4.0;
        var y := (DataLoader.Fraction(row, rows - 1) - 0.5) * 4.0;
        var z := g[row][j] * Config.HeightScale;
        var color := BandColor(BandOf(HeightRatio(g[row][j], minHeight, maxHeight)));
        var normal := VertexNormal(g, row, j);
        StripVertex(g, minHeight, maxHeight, i, j, row - i);
        assert s[..2 * j + (row - i) + 1] == strip + [s[2 * j + (row - i)]];
        strip := strip + [VertexRecord(color, normal, Vec3(x, y, z))];
      }
    }
    assert s[..2 * cols] == s;
  }

  /** The loops of generate_terrain_display_list: the minimum and maximum once, then one
      strip per pair of neighbouring rows. */
  method EmitTerrainStrips(g: Grid) returns (mesh: Mesh)
    requires MeshBuildable(g)
    ensures mesh == TerrainMesh(g)
  {
    var minHeight, maxHeight := GridMin(g), GridMax(g);
    mesh := [];
    for i := 0 to |g| - 1
      invariant mesh == TerrainMesh(g)[..i]
    {
      var strip := EmitStrip(g, i, minHeight, maxHeight);
      assert TerrainMesh(g)[..i + 1] == mesh + [TerrainMesh(g)[i]];
      mesh := mesh + [strip];
    }
    assert TerrainMesh(g)[..|g| - 1] == TerrainMesh(g);
  }

  /** The mesh has `rows - 1` strips of `2 * cols` vertices, strip i listing (i, 0),
      (i + 1, 0), (i, 1), (i + 1, 1), and so on. */
  lemma MeshLayout(g: Grid, i: nat, j: nat, d: nat)
    requires MeshBuildable(g) && i + 1 < |g| && j < Cols(g) && d < 2
    ensures |TerrainMesh(g)| == |g| - 1
    ensures |TerrainMesh(g)[i]| == 2 * Cols(g)
    ensures TerrainMesh(g)[i][2 * j + d] == MeshVertex(g, GridMin(g), GridMax(g), i + d, j)
  {
    StripVertex(g, GridMin(g), GridMax(g), i, j, d);
  }

  /** Every vertex lies over the square [-2, 2] x [-2, 2], at a tenth of its height; the
      corners of the grid go to the corners of the square. The position does not depend on
      the colour range, so this holds for any `lo` and `hi`. */
  lemma MeshGeometry(g: Grid, lo: real, hi: real, row: nat, j: nat)
    requires MeshBuildable(g) && 2 <= |g| && row < |g| && j < Cols(g)
    ensures var p := MeshVertex(g, lo, hi, row, j).position;
      -2.0 <= p.x <= 2.0 && -2.0 <= p.y <= 2.0 && p.z == g[row][j] * 0.1
    ensures MeshVertex(g, lo, hi, 0, 0).position == Vec3(-2.0, -2.0, g[0][0] * 0.1)
    ensures var last := MeshVertex(g, lo, hi, |g| - 1, Cols(g) - 1).position;
      last.x == 2.0 && last.y == 2.0
  {
    DataLoader.FractionUnit(j, Cols(g) - 1);
    DataLoader.FractionUnit(row, |g| - 1);
    DataLoader.FractionUnit(0, Cols(g) - 1);
    DataLoader.FractionUnit(0, |g| - 1);
    DataLoader.FractionUnit(Cols(g) - 1, Cols(g) - 1);
    DataLoader.FractionUnit(|g| - 1, |g| - 1);
  }

  /** The colour ratio is the normalised height, so it lies in [0, 1], and a vertex has
      the colour of its band: the mesh and the height-map texture agree on every cell. */
  lemma MeshColors(g: Grid, row: nat, j: nat)
    requires MeshBuildable(g) && 2 <= |g| && row < |g| && j < Cols(g)
    ensures var q := HeightRatio(g[row][j], GridMin(g), GridMax(g));
      q == Utils.Normalize(g)[row][j] && 0.0 <= q <= 1.0
    ensures MeshVertex(g, GridMin(g), GridMax(g), row, j).color == BandColor(BandOf(Utils.Normalize(g)[row][j]))
    ensures Utils.TextureColor(g, row, j) == Utils.ColorBytes(MeshVertex(g, GridMin(g), GridMax(g), row, j).color)
  {
    RatioIsRescale(g[row][j], GridMin(g), GridMax(g));
    if IsFlat(g) {
      Utils.NormalizeFlat(g, row, j);
    } else {
      Utils.NormalizeRange(g, row, j);
    }
  }

  /** A flat grid is drawn all in the water colour. */
  lemma FlatMeshIsWater(g: Grid, row: nat, j: nat)
    requires MeshBuildable(g) && 2 <= |g| && IsFlat(g) && row < |g| && j < Cols(g)
    ensures MeshVertex(g, GridMin(g), GridMax(g), row, j).color == Config.WaterColor
  {
    MeshColors(g, row, j);
    Utils.NormalizeFlat(g, row, j);
  }

  /** An interior normal points upwards with z = 4 / max(rows, cols), so its length is
      positive and the division by the length always happens; a border normal is
      (0, 0, 1). */
  lemma MeshNormals(g: Grid, row: nat, j: nat)
    requires IsRectangular(g) && row < |g| && j < Cols(g)
    ensures IsInteriorCell(g, row, j) ==>
      VertexNormal(g, row, j).z == 4.0 / (if |g| >= Cols(g) then |g| as real else Cols(g) as real) &&
      VertexNormal(g, row, j).z > 0.0 &&
      Dot(VertexNormal(g, row, j), VertexNormal(g, row, j)) > 0.0
    ensures !IsInteriorCell(g, row, j) ==> VertexNormal(g, row, j) == Vec3(0.0, 0.0, 1.0)
  {
    if IsInteriorCell(g, row, j) {
      var longest: real := if |g| >= Cols(g) then |g| as real else Cols(g) as real;
      var v := VertexNormal(g, row, j);
      assert v.z == 4.0 / longest;
      assert v.z > 0.0 by {
        assert (4.0 / longest) * longest == 4.0;
      }
      assert v.x * v.x >= 0.0;
      assert v.y * v.y >= 0.0;
      assert v.z * v.z > 0.0;
    }
  }

  // ---------------------------------------------------------------------------------
  // The widget

  /** What one repaint shows: the terrain mesh, or the placeholder cone before any data. */
  datatype Scene = TerrainScene(mesh: Mesh) | PlaceholderScene

  /** One paintGL: the camera it looked through, the polygon mode, and the scene. */
  datatype Frame = Frame(camera: Camera, mode: RenderMode, scene: Scene)

  class Map3DWidget {
    var distance: real
    var rotationX: real
    var rotationY: real
    var targetX: real
    var targetY: real
    var lastMousePos: Option<Point>
    var elevation: Option<Grid>
    var texture: Option<DataLoader.Image>
    /** The handle of the cached terrain display list. */
    var terrainList: Option<nat>
    /** The display lists alive in the GL context, by handle. */
    var lists: map<nat, Mesh>
    /** The handle glGenLists hands out next. */
    var nextList: nat
    var mode: RenderMode
    /** Every repaint so far, oldest first. */
    var frames: seq<Frame>

    function CameraState(): Camera
      reads this
    {
      Camera(distance, rotationX, rotationY, targetX, targetY)
    }

    /** The camera is within its limits; the only live display list is the cached one, it
        holds the mesh of the current grid, and no later handle was used before. */
    predicate Valid()
      reads this
    {
      InRange(CameraState()) &&
      (forall h :: h in lists ==> h < nextList && terrainList == Some(h)) &&
      (terrainList.Some? ==>
        terrainList.value in lists && elevation.Some? && MeshBuildable(elevation.value) &&
        lists[terrainList.value] == TerrainMesh(elevation.value))
    }

    constructor()
      ensures Valid()
      ensures CameraState() == HomeCamera
      ensures lastMousePos.None? && elevation.None? && texture.None? && terrainList.None?
      ensures lists == map[] && nextList == 1 && mode == Solid && frames == []
    {
      distance := Config.DefaultDistance;
      rotationX := Config.DefaultRotationX;
      rotationY := Config.DefaultRotationY;
      targetX := 0.0;
      targetY := 0.0;
      lastMousePos := None;
      elevation := None;
      texture := None;
      terrainList := None;
      lists := map[];
      nextList := 1;
      mode := Solid;
      frames := [];
    }

    /** mousePressEvent: remember where the drag starts. */
    method MousePress(pos: Point)
      requires Valid()
      modifies this`lastMousePos
      ensures Valid() && lastMousePos == Some(pos)
    {
      lastMousePos := Some(pos);
    }

    /** mouseMoveEvent. Without a stored position it only records this one. Otherwise a left
        drag turns the camera (horizontal angle unbounded, elevation clamped to [-89, 89]),
        a right drag without the left button pans the target, and the position is stored;
        the distance never changes. */
    method MouseMove(pos: Point, buttons: Buttons)
      requires Valid()
      modifies this`rotationX, this`rotationY, this`targetX, this`targetY, this`lastMousePos
      ensures Valid() && lastMousePos == Some(pos)
      ensures old(lastMousePos).None? ==> CameraState() == old(CameraState())
      ensures old(lastMousePos).Some? ==>
        var dx, dy := (pos.x - old(lastMousePos).value.x) as real, (pos.y - old(lastMousePos).value.y) as real;
        if buttons.left then
          rotationY == old(rotationY) + dx * Config.MouseSensitivity &&
          rotationX == Clamp(-MaxTilt, MaxTilt, old(rotationX) + dy * Config.MouseSensitivity) &&
          targetX == old(targetX) && targetY == old(targetY)
        else if buttons.right then
          targetX == old(targetX) - dx * PanSpeed && targetY == old(targetY) + dy * PanSpeed &&
          rotationX == old(rotationX) && rotationY == old(rotationY)
        else CameraState() == old(CameraState())
    {
      if lastMousePos.None? {
        lastMousePos := Some(pos);
        return;
      }
      var dx := pos.x - lastMousePos.value.x;
      var dy := pos.y - lastMousePos.value.y;
      if buttons.left {
        rotationY := rotationY + (dx as real) * Config.MouseSensitivity;
        rotationX := rotationX + (dy as real) * Config.MouseSensitivity;
        rotationX := Clamp(-MaxTilt, MaxTilt, rotationX);
      } else if buttons.right {
        targetX := targetX - (dx as real) * PanSpeed;
        targetY := targetY + (dy as real) * PanSpeed;
      }
      lastMousePos := Some(pos);
    }

    /** wheelEvent: zoom by 0.001 per unit of wheel delta, the distance clamped to [1, 20]. */
    method Wheel(delta: int)
      requires Valid()
      modifies this`distance
      ensures Valid()
      ensures distance == Clamp(Config.MinDistance, Config.MaxDistance, old(distance) - (delta as real) * Config.ZoomSpeed)
    {
      distance := distance - (delta as real) * Config.ZoomSpeed;
      distance := Clamp(Config.MinDistance, Config.MaxDistance, distance);
    }

    /** keyPressEvent: R puts the camera back to its home pose whatever it was, W switches
        to wireframe and S to solid whatever the mode was; other keys do nothing. */
    method KeyPress(key: Key)
      requires Valid()
      modifies this`distance, this`rotationX, this`rotationY, this`targetX, this`targetY, this`mode
      ensures Valid()
      ensures key == KeyR ==> CameraState() == HomeCamera && mode == old(mode)
      ensures key == KeyW ==> mode == Wireframe && CameraState() == old(CameraState())
      ensures key == KeyS ==> mode == Solid && CameraState() == old(CameraState())
      ensures key == OtherKey ==> mode == old(mode) && CameraState() == old(CameraState())
    {
      match key
      case KeyR =>
        distance := Config.DefaultDistance;
        rotationX := Config.DefaultRotationX;
        rotationY := Config.DefaultRotationY;
        targetX := 0.0;
        targetY := 0.0;
      case KeyW =>
        mode := Wireframe;
      case KeyS =>
        mode := Solid;
      case OtherKey =>
    }

    /** load_terrain_data: store the new grid and texture, delete the cached list so that
        the next draw rebuilds it, and move the camera to the loaded pose. */
    method LoadTerrainData(g: Grid, tex: Option<DataLoader.Image>)
      requires Valid()
      modifies this`elevation, this`texture, this`terrainList, this`lists
      modifies this`distance, this`rotationX, this`rotationY, this`targetX, this`targetY
      ensures Valid()
      ensures elevation == Some(g) && texture == tex && terrainList.None?
      ensures lists == map[] && CameraState() == LoadedCamera
    {
      elevation := Some(g);
      texture := tex;
      if terrainList.Some? {
        lists := lists - {terrainList.value};
        terrainList := None;
      }
      distance := LoadedDistance;
      rotationX := Config.DefaultRotationX;
      rotationY := Config.DefaultRotationY;
      targetX := 0.0;
      targetY := 0.0;
    }

    /** generate_terrain_display_list, reached only through DrawTerrain when no list is
        cached: nothing without a grid; otherwise a new handle holding the grid's mesh. */
    method GenerateTerrainDisplayList()
      requires Valid() && terrainList.None?
      requires elevation.Some? ==> MeshBuildable(elevation.value)
      modifies this`terrainList, this`lists, this`nextList
      ensures Valid()
      ensures elevation.None? ==> terrainList.None? && lists == old(lists) && nextList == old(nextList)
      ensures elevation.Some? ==>
        terrainList == Some(old(nextList)) && nextList == old(nextList) + 1 &&
        lists == map[old(nextList) := TerrainMesh(elevation.value)]
    {
      if elevation.None? {
        return;
      }
      var handle := nextList;
      nextList := nextList + 1;
      var mesh := EmitTerrainStrips(elevation.value);
      lists := lists[handle := mesh];
      terrainList := Some(handle);
    }

    /** draw_terrain: build the list when none is cached, then call it. A cached list is
        reused as it is, so a grid is built at most once per load, and what is drawn is
        always the mesh of the current grid. */
    method DrawTerrain() returns (drawn: Option<Mesh>)
      requires Valid()
      requires elevation.Some? ==> MeshBuildable(elevation.value)
      modifies this`terrainList, this`lists, this`nextList
      ensures Valid()
      ensures old(terrainList).Some? ==>
        terrainList == old(terrainList) && lists == old(lists) && nextList == old(nextList)
      ensures old(terrainList).None? && elevation.Some? ==>
        terrainList == Some(old(nextList)) && nextList == old(nextList) + 1
      ensures elevation.Some? ==> drawn == Some(TerrainMesh(elevation.value)) && terrainList.Some?
      ensures elevation.None? ==> drawn.None? && terrainList.None?
      ensures elevation.None? ==> lists == old(lists) && nextList == old(nextList)
    {
      if terrainList.None? {
        GenerateTerrainDisplayList();
      }
      drawn := None;
      if terrainList.Some? {
        drawn := Some(lists[terrainList.value]);
      }
    }

    /** paintGL: one frame through the current camera, showing the current grid's mesh, or
        the placeholder while there is no grid. The eye position itself is trigonometry of
        these camera values. */
    method PaintGL()
      requires Valid()
      requires elevation.Some? ==> MeshBuildable(elevation.value)
      modifies this`terrainList, this`lists, this`nextList, this`frames
      ensures Valid()
      ensures old(terrainList).Some? ==>
        terrainList == old(terrainList) && lists == old(lists) && nextList == old(nextList)
      ensures old(terrainList).None? && elevation.Some? ==>
        terrainList == Some(old(nextList)) && nextList == old(nextList) + 1
      ensures elevation.Some? <==> terrainList.Some?
      ensures elevation.None? ==> lists == old(lists) && nextList == old(nextList)
      ensures frames == old(frames) + [Frame(CameraState(), mode,
        if elevation.Some? then TerrainScene(TerrainMesh(elevation.value)) else PlaceholderScene)]
    {
      var scene := PlaceholderScene;
      if elevation.Some? {
        var drawn := DrawTerrain();
        scene := TerrainScene(drawn.value);
      }
      frames := frames + [Frame(CameraState(), mode, scene)];
    }

    /** cleanup: delete the cached list. The handle itself is kept. */
    method Cleanup()
      requires Valid()
      modifies this`lists
      ensures lists == map[]
      ensures terrainList == old(terrainList)
    {
      if terrainList.Some? {
        lists := lists - {terrainList.value};
      }
    }
  }

  // ---------------------------------------------------------------------------------
  // Event sequences

  /** A left drag of 1000 pixels to the right from the home pose: the horizontal angle
      grows by 500 degrees unclamped, the rest of the camera stays put. */
  method DragRight() returns (w: Map3DWidget)
    ensures w.Valid()
    ensures w.CameraState() == HomeCamera.(rotationY := 500.0)
  {
    w := new Map3DWidget();
    w.MousePress(Point(0, 0));
    w.MouseMove(Point(1000, 0), Buttons(true, true));
  }

  /** Dragging far downwards stops the elevation angle at 89 degrees. */
  method TiltLimit() returns (w: Map3DWidget)
    ensures w.Valid()
    ensures w.rotationX == 89.0
  {
    w := new Map3DWidget();
    w.MousePress(Point(0, 0));
    w.MouseMove(Point(0, 10000), Buttons(true, false));
  }

  /** Loading a second grid after the first was drawn: the next frame shows the second
      grid's mesh, and only one display list is alive. */
  method ReloadAndRepaint(g1: Grid, g2: Grid) returns (w: Map3DWidget)
    requires MeshBuildable(g1) && MeshBuildable(g2)
    ensures w.Valid() && |w.frames| == 2
    ensures w.frames[0].scene == TerrainScene(TerrainMesh(g1))
    ensures w.frames[1].scene == TerrainScene(TerrainMesh(g2))
    ensures w.frames[1].camera == LoadedCamera
    ensures |w.lists| == 1 && w.terrainList.Some? && w.lists[w.terrainList.value] == TerrainMesh(g2)
  {
    w := new Map3DWidget();
    w.LoadTerrainData(g1, None);
    w.PaintGL();
    w.LoadTerrainData(g2, None);
    w.PaintGL();
    assert w.lists.Keys == {w.terrainList.value};
  }

  /** Two repaints without a new grid build the mesh once. */
  method RepaintReusesList(g: Grid) returns (w: Map3DWidget)
    requires MeshBuildable(g)
    ensures w.Valid() && w.nextList == 2
    ensures |w.frames| == 2 && w.frames[0].scene == w.frames[1].scene == TerrainScene(TerrainMesh(g))
  {
    w := new Map3DWidget();
    w.LoadTerrainData(g, None);
    w.PaintGL();
    w.PaintGL();
  }

  /** With no grid nothing is built and the placeholder is shown. */
  method RepaintWithoutGrid() returns (w: Map3DWidget)
    ensures w.Valid() && w.nextList == 1 && w.lists == map[] && w.terrainList.None?
    ensures w.frames == [Frame(HomeCamera, Solid, PlaceholderScene)]
  {
    w := new Map3DWidget();
    w.PaintGL();
  }
}
