/** Configuration tables of the map viewer: the constant settings dictionaries and the
    two lookups with a default entry. Every other module reads its constants from here. */
module Config {

  /** An RGB colour with channels in [0, 1], as the entries of COLOR_SETTINGS. */
  datatype Rgb = Rgb(r: real, g: real, b: real)

  predicate IsUnitColor(c: Rgb) {
    0.0 <= c.r <= 1.0 && 0.0 <= c.g <= 1.0 && 0.0 <= c.b <= 1.0
  }

  // RENDER_SETTINGS
  const DefaultTerrainSize: int := 50
  const HeightScale: real := 0.1
  const TerrainQuality: string := "medium"

  // CAMERA_SETTINGS
  const DefaultDistance: real := 5.0
  const DefaultRotationX: real := -30.0
  const DefaultRotationY: real := 0.0
  const MouseSensitivity: real := 0.5
  const ZoomSpeed: real := 0.001
  const MinDistance: real := 1.0
  const MaxDistance: real := 20.0

  // COLOR_SETTINGS (band colours only; the grid and background colours feed GL calls alone)
  const WaterColor: Rgb := Rgb(0.2, 0.4, 0.8)
  const LandLowColor: Rgb := Rgb(0.2, 0.7, 0.2)
  const LandMidColor: Rgb := Rgb(0.6, 0.4, 0.2)
  const LandHighColor: Rgb := Rgb(0.9, 0.9, 0.9)

  // HEIGHT_THRESHOLDS, on heights normalised to [0, 1]
  const WaterLevel: real := 0.3
  const LowLand: real := 0.6
  const MidLand: real := 0.8

  // API_SETTINGS
  const BatchSize: nat := 100

  /** One entry of the quality table inside get_terrain_quality_settings. */
  datatype QualitySettings = QualitySettings(terrainSize: int, heightScale: real, tileZoom: int)

  const QualityTable: map<string, QualitySettings> := map[
    "low" := QualitySettings(30, 0.05, 12),
    "medium" := QualitySettings(50, 0.1, 14),
    "high" := QualitySettings(100, 0.2, 16)
  ]

  /** `quality_map.get(quality, quality_map['medium'])`: the named entry, and the medium
      entry for every other key. */
  function GetTerrainQualitySettings(quality: string): (s: QualitySettings)
    ensures quality == "low" ==> s == QualitySettings(30, 0.05, 12)
    ensures quality == "high" ==> s == QualitySettings(100, 0.2, 16)
    ensures quality != "low" && quality != "high" ==> s == QualitySettings(50, 0.1, 14)
  {
    if quality in QualityTable then QualityTable[quality] else QualityTable["medium"]
  }

  /** A (latitude, longitude) pair in degrees. */
  type LatLon = (real, real)

  const DefaultLocations: map<string, LatLon> := map[
    "Istanbul" := (41.0082, 28.9784),
    "Ankara" := (39.9334, 32.8597),
    "Izmir" := (38.4192, 27.1287),
    "Antalya" := (36.8969, 30.7133),
    "Bursa" := (40.1826, 29.0665),
    "Everest" := (27.9881, 86.9250),
    "Grand_Canyon" := (36.1069, -112.1129),
    "Mount_Fuji" := (35.3606, 138.7274)
  ]

  /** `DEFAULT_LOCATIONS.get(name, DEFAULT_LOCATIONS['Istanbul'])`. */
  function GetLocationCoordinates(name: string): (p: LatLon)
    ensures name in DefaultLocations ==> p == DefaultLocations[name]
    ensures name !in DefaultLocations ==> p == (41.0082, 28.9784)
    ensures p in DefaultLocations.Values
  {
    if name in DefaultLocations then DefaultLocations[name] else DefaultLocations["Istanbul"]
  }

  /** Every quality setting strictly grows from low to medium to high. */
  lemma QualityIncreases()
    ensures var lo, md, hi := GetTerrainQualitySettings("low"),
                              GetTerrainQualitySettings("medium"),
                              GetTerrainQualitySettings("high");
      lo.terrainSize < md.terrainSize < hi.terrainSize &&
      lo.heightScale < md.heightScale < hi.heightScale &&
      lo.tileZoom < md.tileZoom < hi.tileZoom
  {
  }

  /** The default quality named by RENDER_SETTINGS agrees with RENDER_SETTINGS itself, and
      an unknown key falls back to that same entry. */
  lemma MediumMatchesRenderSettings(unknown: string)
    requires unknown !in QualityTable
    ensures GetTerrainQualitySettings(TerrainQuality).terrainSize == DefaultTerrainSize
    ensures GetTerrainQualitySettings(TerrainQuality).heightScale == HeightScale
    ensures GetTerrainQualitySettings(unknown) == GetTerrainQualitySettings(TerrainQuality)
  {
  }

  /** The thresholds split (0, 1) into four non-empty ordered bands; the distance bounds
      bracket the default distance; the band colours are proper colours. */
  lemma SettingsWellFormed()
    ensures 0.0 < WaterLevel < LowLand < MidLand < 1.0
    ensures MinDistance < DefaultDistance < MaxDistance
    ensures IsUnitColor(WaterColor) && IsUnitColor(LandLowColor)
    ensures IsUnitColor(LandMidColor) && IsUnitColor(LandHighColor)
  {
  }
}
