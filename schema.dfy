/** The level document as the protobuf decoder hands it to the game
    (the `COD.Level` schema embedded in game.js:57-229).

    Decoding itself is not part of this model: a `Level` value is what
    `message.toObject(decoded)` returns. That call leaves out every scalar
    field that holds its default, so a float field is an `Option<real>`
    (`None` = left out) and the game reads it back with `x || 0`, which is
    `OrZero`. An empty repeated field is left out too, so an empty `seq`
    here stands for a list that is absent from the object: the game guards
    `animations` and `frames` before reading them, but iterates
    `levelNodes` and `childNodes` unguarded, and loading such a level throws
    (`SceneBuilder.Completes`). Enumerations are open in proto3, so shape
    and material stay plain integers; unknown values reach the scene
    builder unchanged. */
module Schema {

  datatype Option<T> = None | Some(value: T)

  /** The eye height the game adds to a Start node's y (game.js:5). */
  const PlayerHeight: real := 1.0

  // LevelNodeShape (game.js:109-121)
  const ShapeStart: int := 0
  const ShapeFinish: int := 1
  const ShapeSign: int := 2
  const ShapeEndOfSpecialParts: int := 3
  const ShapeCube: int := 1000
  const ShapeSphere: int := 1001
  const ShapeCylinder: int := 1002
  const ShapePyramid: int := 1003
  const ShapePrism: int := 1004

  // LevelNodeMaterial (game.js:123-136)
  const MaterialDefault: int := 0
  const MaterialGrabbable: int := 1
  const MaterialIce: int := 2
  const MaterialLava: int := 3
  const MaterialWood: int := 4
  const MaterialGrapplable: int := 5
  const MaterialGrapplableLava: int := 6
  const MaterialGrabbableCrumbling: int := 7
  const MaterialDefaultColored: int := 8
  const MaterialBouncing: int := 9

  /** `v || 0`: a float the decoder left out reads as 0. */
  function OrZero(v: Option<real>): real
  {
    match v
    case None => 0.0
    case Some(x) => x
  }

  datatype Vector = Vector(x: Option<real>, y: Option<real>, z: Option<real>)

  datatype Quaternion = Quaternion(x: Option<real>, y: Option<real>, z: Option<real>, w: Option<real>)

  datatype Color = Color(r: Option<real>, g: Option<real>, b: Option<real>, a: Option<real>)

  datatype AmbienceSettings = AmbienceSettings(
    skyZenithColor: Option<Color>,
    skyHorizonColor: Option<Color>,
    sunAltitude: Option<real>,
    sunAzimuth: Option<real>,
    sunSize: Option<real>,
    fogDDensity: Option<real>)

  datatype LevelNodeGroup = LevelNodeGroup(
    position: Vector, scale: Vector, rotation: Quaternion, childNodes: seq<LevelNode>)

  datatype LevelNodeStart = LevelNodeStart(position: Vector, rotation: Quaternion, radius: Option<real>)

  datatype LevelNodeFinish = LevelNodeFinish(position: Vector, radius: Option<real>)

  datatype LevelNodeStatic = LevelNodeStatic(
    shape: int, material: int,
    position: Vector, scale: Vector, rotation: Quaternion,
    color: Color, isNeon: bool)

  datatype LevelNodeCrumbling = LevelNodeCrumbling(
    shape: int, material: int,
    position: Vector, scale: Vector, rotation: Quaternion,
    stableTime: Option<real>, respawnTime: Option<real>)

  datatype LevelNodeSign = LevelNodeSign(position: Vector, rotation: Quaternion, text: string)

  /** Read by the scene builder (game.js:557-601) although the embedded
      schema declares no such message and `LevelNode` has no such field
      (game.js:214-229): the decoder drops it, so on decoded input this
      field is always absent and the gravity branch never runs. It is kept
      so that the dispatch has the code's shape. */
  datatype LevelNodeGravity = LevelNodeGravity(
    mode: int, position: Vector, scale: Vector, rotation: Quaternion)

  datatype AnimationFrame = AnimationFrame(time: Option<real>, position: Vector, rotation: Quaternion)

  datatype Direction = Restart | PingPong

  datatype Animation = Animation(
    name: string, frames: seq<AnimationFrame>, direction: Direction, speed: Option<real>)

  /** A decoded node: each `oneof content` case is a field that is either
      there or not, as on the decoded object the builder tests one after
      the other. */
  datatype LevelNode = LevelNode(
    isLocked: bool,
    levelNodeStart: Option<LevelNodeStart>,
    levelNodeFinish: Option<LevelNodeFinish>,
    levelNodeStatic: Option<LevelNodeStatic>,
    levelNodeSign: Option<LevelNodeSign>,
    levelNodeCrumbling: Option<LevelNodeCrumbling>,
    levelNodeGroup: Option<LevelNodeGroup>,
    levelNodeGravity: Option<LevelNodeGravity>,
    animations: seq<Animation>)

  datatype Level = Level(
    formatVersion: nat,
    title: string,
    creators: string,
    description: string,
    complexity: nat,
    maxCheckpointCount: nat,
    ambienceSettings: Option<AmbienceSettings>,
    levelNodes: seq<LevelNode>)

  /** Resolved coordinates, with every left-out component read as 0. */
  datatype Vec3 = Vec3(x: real, y: real, z: real)

  datatype Quat = Quat(x: real, y: real, z: real, w: real)

  function Resolve(v: Vector): Vec3
  {
    Vec3(OrZero(v.x), OrZero(v.y), OrZero(v.z))
  }

  function ResolveQuat(q: Quaternion): Quat
  {
    Quat(OrZero(q.x), OrZero(q.y), OrZero(q.z), OrZero(q.w))
  }

  function Abs(x: real): real
  {
    if x < 0.0 then -x else x
  }

  function Max(a: real, b: real): real
  {
    if a < b then b else a
  }
}
