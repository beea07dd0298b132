/** The level descriptor that the level editor serializes: plain values copied
    out of the scene. Vectors and colours are only copied, never computed on,
    so their components are kept as reals. */
module LevelData {

  datatype Option<T> = None | Some(value: T)

  /** Unity's Vector3 (positions, Euler angles, scales). */
  datatype Vector3 = Vector3(x: real, y: real, z: real)

  /** Vector3.zero */
  const Zero: Vector3 := Vector3(0.0, 0.0, 0.0)

  /** Unity's Quaternion, the rotation a Transform stores. */
  datatype Quaternion = Quaternion(x: real, y: real, z: real, w: real)

  /** Quaternion.identity */
  const Identity: Quaternion := Quaternion(0.0, 0.0, 0.0, 1.0)

  /** Unity's Color (RGBA). */
  datatype Color = Color(r: real, g: real, b: real, a: real)

  /** One placed object of the level. */
  datatype LevelItemRepresentation = LevelItemRepresentation(
    prefabName: string,
    position: Vector3,
    rotation: Vector3,   // Euler angles
    scale: Vector3,
    spriteLayer: string,
    spriteOrder: int,
    spriteColor: Color)

  /** The values the sprite fields keep when the object has no sprite renderer:
      the field defaults of a freshly created item (the null string is
      represented by the empty string). */
  const DefaultSpriteLayer: string := ""
  const DefaultSpriteOrder: int := 0
  const DefaultSpriteColor: Color := Color(0.0, 0.0, 0.0, 0.0)

  /** The camera-follow settings recorded with a level. */
  datatype CameraSettingsRepresentation = CameraSettingsRepresentation(
    cameraTrackTarget: string,
    cameraZDepth: real,
    minX: real,
    minY: real,
    maxX: real,
    maxY: real,
    trackingSpeed: real)

  /** The whole level: its items in capture order, where the player starts,
      and the camera settings when a camera-follow component was present. */
  datatype LevelDataRepresentation = LevelDataRepresentation(
    levelItems: seq<LevelItemRepresentation>,
    playerStartPosition: Vector3,
    cameraSettings: Option<CameraSettingsRepresentation>)
}
