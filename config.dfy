/** The already-parsed configuration records the generator consumes
    (internal/config/config.go and internal/config/switch_definition.go).
    `float64` fields are modelled as `real`; YAML decoding is not part of
    this model. */
module Config {

  /** A three-component vector. Offsets and rotations have the same shape
      but are distinct Go types; the constructor records which one a value
      is, so that vector addition can keep them apart. */
  datatype Vec3 =
    | Off(x: real, y: real, z: real)
    | Rot(x: real, y: real, z: real)

  type Offset = v: Vec3 | v.Off? witness Off(0.0, 0.0, 0.0)
  type Rotation = v: Vec3 | v.Rot? witness Rot(0.0, 0.0, 0.0)

  const ZeroOffset: Offset := Off(0.0, 0.0, 0.0)
  const ZeroRotation: Rotation := Rot(0.0, 0.0, 0.0)

  /** The value of a YAML extra argument: any scalar or structure the
      footprint template accepts. Nothing in the generator looks inside it. */
  type ArgValue(==)

  datatype Units = Units(length: string, angle: string)

  datatype Layout = Layout(rows: int, cols: int)

  datatype GeometryConfig = GeometryConfig(
    planeThickness: real,
    supportRadius: real,
    keywellElevation: real,
    wallBaseThickness: real,
    wallCenterOffsetPercent: real)

  datatype SwitchTypeConfig = SwitchTypeConfig(
    definition: string,
    extraArgs: map<string, ArgValue>)

  datatype FingerModifier = FingerModifier(offset: Offset, tilt: real)

  /** Go's zero value of `FingerModifier`. */
  const ZeroFinger: FingerModifier := FingerModifier(ZeroOffset, 0.0)

  datatype FingerModifiers = FingerModifiers(
    index: FingerModifier,
    middle: FingerModifier,
    ring: FingerModifier,
    pinky: FingerModifier)

  datatype RowColumnModifier = RowColumnModifier(offset: Offset, tilt: real)

  /** The per-cell `Matrix` layer is not represented: nothing reads it. */
  datatype KeywellModifiers = KeywellModifiers(
    finger: FingerModifiers,
    rows: map<int, RowColumnModifier>,
    columns: map<int, RowColumnModifier>)

  datatype Keywell = Keywell(
    tiltAngle: real,
    horizontalRadius: real,
    verticalRadius: real,
    centerOffset: Offset,
    innerLipSize: real,
    outerLipSize: real,
    indexFingerStartColumn: int,
    modifiers: KeywellModifiers)

  datatype ThumbKey = ThumbKey(offset: Offset, rotation: Rotation, keyType: string)

  datatype ThumbCluster = ThumbCluster(
    originColumnIndex: int,
    offset: Offset,
    rotation: Rotation,
    keys: map<int, ThumbKey>)

  datatype Render = Render(fn: int, debug: bool)

  datatype Config = Config(
    units: Units,
    layout: Layout,
    geometry: GeometryConfig,
    switchTypes: map<string, SwitchTypeConfig>,
    keywell: Keywell,
    thumbCluster: ThumbCluster,
    render: Render)

  datatype MinKeycapSize = MinKeycapSize(width: real, height: real, depth: real)

  datatype SwitchModuleDefinition = SwitchModuleDefinition(
    filename: string,
    moduleName: string,
    minKeycapSize: MinKeycapSize,
    extraArgs: map<string, ArgValue>)
}
