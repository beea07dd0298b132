/** The level editor's save routine: reset the level's transform, walk the
    direct children of the "Level" object and build a level descriptor, then
    compute the file the descriptor is saved to. The engine's object queries
    are inputs: a Scene says what GameObject.Find and FindObjectOfType return,
    and the quaternion-to-Euler conversion is a function parameter. */
module LevelEditor {
  import opened LevelData
  import opened PrefabNames
  import opened SavePaths

  /** The SpriteRenderer component of a child, as the capture reads it. */
  datatype SpriteRenderer = SpriteRenderer(sortingLayerName: string, sortingOrder: int, color: Color)

  /** A direct child of the level root: its name, its world position and
      rotation, its local scale, and its SpriteRenderer (None for null). */
  datatype ChildTransform = ChildTransform(
    name: string,
    position: Vector3,
    rotation: Quaternion,
    localScale: Vector3,
    spriteRenderer: Option<SpriteRenderer>)

  /** The CameraLerpToTransform component: camTarget is the name of the
      tracked Transform, or None when that reference is null. */
  datatype CameraLerpToTransform = CameraLerpToTransform(
    camTarget: Option<string>,
    trackingSpeed: real,
    cameraZDepth: real,
    minX: real,
    minY: real,
    maxX: real,
    maxY: real)

  /** What the capture asks of the scene. */
  datatype Scene = Scene(
    levelRoot: Option<seq<ChildTransform>>,       // GameObject.Find("Level"), by its children in traversal order
    soyBoy: Option<Vector3>,                      // GameObject.Find("SoyBoy"), by its position
    cameraFollow: Option<CameraLerpToTransform>)  // FindObjectOfType<CameraLerpToTransform>()

  /** The null reference the routine dereferences, ending it with an exception. */
  datatype CaptureError =
    | LevelRootMissing     // no object named "Level"
    | PlayerMissing        // no object named "SoyBoy"
    | CameraTargetMissing  // the camera-follow component has no camTarget

  datatype Result<T> = Success(value: T) | Failure(error: CaptureError)

  /** The first null reference the capture runs into, in program order. */
  function NullReferenceIn(scene: Scene): Option<CaptureError> {
    if scene.levelRoot.None? then Some(LevelRootMissing)
    else if scene.soyBoy.None? then Some(PlayerMissing)
    else if scene.cameraFollow.Some? && scene.cameraFollow.value.camTarget.None? then Some(CameraTargetMissing)
    else None
  }

  /** Item `li` records child `t`: prefab name from the child's name, its
      transform copied, and its sprite settings when it has a renderer. */
  ghost predicate RecordsChild(li: LevelItemRepresentation, t: ChildTransform, eulerAngles: Quaternion -> Vector3) {
    && li.prefabName == PrefabName(t.name)
    && li.position == t.position
    && li.rotation == eulerAngles(t.rotation)
    && li.scale == t.localScale
    && match t.spriteRenderer
       case Some(sr) =>
         li.spriteLayer == sr.sortingLayerName && li.spriteColor == sr.color && li.spriteOrder == sr.sortingOrder
       case None =>
         li.spriteLayer == DefaultSpriteLayer && li.spriteColor == DefaultSpriteColor && li.spriteOrder == DefaultSpriteOrder
  }

  /** `d` is the descriptor of `scene`: one item per child of the level root,
      in traversal order; the player start is SoyBoy's position; camera
      settings exactly when a camera-follow component exists, copied from it. */
  ghost predicate IsCaptureOf(d: LevelDataRepresentation, scene: Scene, eulerAngles: Quaternion -> Vector3) {
    && scene.levelRoot.Some?
    && scene.soyBoy.Some?
    && |d.levelItems| == |scene.levelRoot.value|
    && (forall k :: 0 <= k < |d.levelItems| ==> RecordsChild(d.levelItems[k], scene.levelRoot.value[k], eulerAngles))
    && d.playerStartPosition == scene.soyBoy.value
    && match scene.cameraFollow
       case None => d.cameraSettings == None
       case Some(c) =>
         && c.camTarget.Some?
         && d.cameraSettings == Some(CameraSettingsRepresentation(
              cameraTrackTarget := c.camTarget.value,
              cameraZDepth := c.cameraZDepth,
              minX := c.minX,
              minY := c.minY,
              maxX := c.maxX,
              maxY := c.maxY,
              trackingSpeed := c.trackingSpeed))
  }

  /** The capture proper: builds the descriptor of the scene, or fails at the
      first null reference it dereferences. */
  method CaptureLevel(scene: Scene, eulerAngles: Quaternion -> Vector3) returns (r: Result<LevelDataRepresentation>)
    ensures match r
      case Failure(e) => NullReferenceIn(scene) == Some(e)
      case Success(d) => NullReferenceIn(scene) == None && IsCaptureOf(d, scene, eulerAngles)
  {
    if scene.levelRoot.None? {
      return Failure(LevelRootMissing);
    }
    var children := scene.levelRoot.value;
    var levelItems: seq<LevelItemRepresentation> := [];
    for i := 0 to |children|
      invariant |levelItems| == i
      invariant forall k :: 0 <= k < i ==> RecordsChild(levelItems[k], children[k], eulerAngles)
    {
      var t := children[i];
      var li := LevelItemRepresentation(
        prefabName := "",
        position := t.position,
        rotation := eulerAngles(t.rotation),
        scale := t.localScale,
        spriteLayer := DefaultSpriteLayer,
        spriteOrder := DefaultSpriteOrder,
        spriteColor := DefaultSpriteColor);
      li := li.(prefabName := PrefabName(t.name));
      if t.spriteRenderer.Some? {
        var sr := t.spriteRenderer.value;
        li := li.(spriteLayer := sr.sortingLayerName, spriteColor := sr.color, spriteOrder := sr.sortingOrder);
      }
      levelItems := levelItems + [li];
    }
    if scene.soyBoy.None? {
      return Failure(PlayerMissing);
    }
    var ldr := LevelDataRepresentation(levelItems := levelItems, playerStartPosition := scene.soyBoy.value, cameraSettings := None);
    if scene.cameraFollow.Some? {
      var cam := scene.cameraFollow.value;
      if cam.camTarget.None? {
        return Failure(CameraTargetMissing);
      }
      ldr := ldr.(cameraSettings := Some(CameraSettingsRepresentation(
        cameraTrackTarget := cam.camTarget.value,
        cameraZDepth := cam.cameraZDepth,
        minX := cam.minX,
        minY := cam.minY,
        maxX := cam.maxX,
        maxY := cam.maxY,
        trackingSpeed := cam.trackingSpeed)));
    }
    return Success(ldr);
  }

  /** The capture is deterministic: a scene has at most one descriptor. */
  lemma CaptureIsUnique(d1: LevelDataRepresentation, d2: LevelDataRepresentation, scene: Scene, eulerAngles: Quaternion -> Vector3)
    requires IsCaptureOf(d1, scene, eulerAngles)
    requires IsCaptureOf(d2, scene, eulerAngles)
    ensures d1 == d2
  {
  }

  /** The Level component the editor inspects, with its transform. */
  class Level {
    var levelName: string
    var position: Vector3
    var rotation: Quaternion
  }

  /** What the editor writes: the descriptor and the file it goes to. */
  datatype SaveRequest = SaveRequest(savePath: string, levelData: LevelDataRepresentation)

  /** The inspector's routine, run on every inspector redraw: it moves the
      level to the origin (even when the capture then fails), captures the
      scene, and names the file the descriptor is saved to. */
  method OnInspectorGUI(level: Level, scene: Scene, eulerAngles: Quaternion -> Vector3, dataPath: string)
    returns (r: Result<SaveRequest>)
    modifies level
    ensures level.position == Zero && level.rotation == Identity
    ensures level.levelName == old(level.levelName)
    ensures match r
      case Failure(e) => NullReferenceIn(scene) == Some(e)
      case Success(s) =>
        && NullReferenceIn(scene) == None
        && IsCaptureOf(s.levelData, scene, eulerAngles)
        && s.savePath == SavePath(dataPath, level.levelName)
  {
    level.position := Zero;
    level.rotation := Identity;
    var captured := CaptureLevel(scene, eulerAngles);
    match captured {
      case Failure(e) =>
        r := Failure(e);
      case Success(ldr) =>
        var savePath := SavePath(dataPath, level.levelName);
        r := Success(SaveRequest(savePath, ldr));
    }
  }
}
