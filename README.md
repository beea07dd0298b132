# SuperSoyBoy level capture, in Dafny

This project models the level editor of SuperSoyBoy, a 2D platform game built in
Unity. When the editor inspects the `Level` object, `LevelEditor.OnInspectorGUI` does
the following:

- It moves the level's transform to the origin.
- It walks the direct children of the object named "Level" and builds a
  `LevelDataRepresentation`, with one `LevelItemRepresentation` per child.
- It records where the player ("SoyBoy") starts.
- It records the camera-follow settings when a `CameraLerpToTransform` exists.
- It saves the descriptor at `Path.Combine(Application.dataPath, levelName + ".json")`.

The model has four modules:

- `LevelData` (`level_data.dfy`) holds the descriptor types. Vectors and colours are
  only copied into the descriptor, so their components are reals. A child's rotation
  quaternion is not copied: it goes through the Euler-angle conversion, which is a
  function parameter, and the resulting vector is recorded.
- `PrefabNames` (`prefab_name.dfy`) derives a prefab name from an object's name: the
  text before the first space.
- `SavePaths` (`save_path.dfy`) builds the save path with `Path.Combine`, for a platform
  whose directory separator is `/`.
- `LevelEditor` (`level_editor.dfy`) has the capture loop `CaptureLevel` and the whole
  routine `OnInspectorGUI`. The routine changes the fields of the `Level` class in place.

The engine's queries are inputs. A `Scene` holds what the routine gets back from three calls:

- `GameObject.Find("Level")`: the found object's children, in traversal order.
- `GameObject.Find("SoyBoy")`: the found object's position.
- `FindObjectOfType<CameraLerpToTransform>()`: the camera-follow component.

Each of the three can be absent. The conversion from a quaternion to Euler angles is a
function parameter.

A null reference that the routine dereferences is modelled as a `Failure` result, at the
first point where it happens:

- no "Level" object (line 31);
- no "SoyBoy" object (line 74);
- a camera-follow component whose `camTarget` is null (line 83).

The level transform is reset before any of these points, so the reset happens even when
the capture then fails.

Three behaviours of the code are recorded as they are:

- An object whose name begins with a space gets an empty prefab name
  (`Substring(0, 0)`), and nothing rejects it.
- An item whose object has no SpriteRenderer keeps the default values of its sprite fields.
- Besides a missing "SoyBoy" object, the routine also throws when there is no "Level"
  object and when a camera-follow component has a null `camTarget`.

## Model

| member | source | states |
|---|---|---|
| `PrefabNames.IndexOfSpace` | Assets/Scripts/Editor/LevelEditor.cs:47-49 | The result is -1 exactly when the name has no space. Otherwise it is the index of a space with no space before it. |
| `PrefabNames.PrefabName` | Assets/Scripts/Editor/LevelEditor.cs:47-54 | The prefab name is a prefix of the object's name and holds no space. It ends at the name's end or just before a space. It is the whole name when there is no space. It is empty exactly when the name is empty or starts with a space. |
| `PrefabNames.PrefabNameUnique` | Assets/Scripts/Editor/LevelEditor.cs:47-54 | Any space-free prefix of the name that ends at the name's end or at a space is the prefix before the first space. So the properties above determine the prefab name. |
| `SavePaths.Combine` | Assets/Scripts/Editor/LevelEditor.cs:97-98 | `Path.Combine` always ends with its second part. An empty second part gives the first part. An empty first part gives the second part. A rooted second part replaces the first. Otherwise the result starts with the first part. When both parts are non-empty and the second is not rooted, what comes before the second part is the first part followed by exactly one separator (none added if it already ends with one). |
| `SavePaths.SavePath` | Assets/Scripts/Editor/LevelEditor.cs:97-98 | The save path ends with `levelName + ".json"`. It starts with the data directory unless the level name is rooted. A rooted level name, or an empty data directory, gives `levelName + ".json"` alone. Otherwise the path is the data directory, one separator (none added if the directory already ends with one), then `levelName + ".json"`. |
| `SavePaths.SavePathSplits` | Assets/Scripts/Editor/LevelEditor.cs:97-98 | Take a non-empty data directory and a level name with no separator. Splitting the save path at its last separator gives back the data directory (with one trailing separator) and the file name `levelName + ".json"`. |
| `LevelEditor.CaptureLevel` | Assets/Scripts/Editor/LevelEditor.cs:26-91 | The capture fails exactly at the first null reference: "Level" missing, then "SoyBoy" missing, then camTarget null. On success there is one item per child of the level root, in traversal order. Each item copies the child's position, Euler rotation and scale. Its prefab name comes from the child's name. Its sprite layer, colour and order are the renderer's when it has one, and the defaults otherwise. The player start is SoyBoy's position. Camera settings are present exactly when a camera-follow component exists. They hold the target's name and the other settings unchanged. |
| `LevelEditor.CaptureIsUnique` | Assets/Scripts/Editor/LevelEditor.cs:28-91 | A scene has at most one descriptor. The capture is deterministic. |
| `LevelEditor.OnInspectorGUI` | Assets/Scripts/Editor/LevelEditor.cs:22-98 | Afterwards the level is at the zero position with identity rotation, whether or not the capture succeeds. Its name is unchanged. The result is the capture's result. On success it is paired with `Path.Combine(dataPath, levelName + ".json")`. |

## Left out

- JSON encoding, the file write and the log line (lines 96, 99-100) are a foreign
  serializer and I/O. The model stops at the in-memory descriptor and its path.
- `DrawDefaultInspector` and the "Save level" button (lines 12-17) are editor UI. The
  button's block is empty, so the capture runs on every inspector redraw.
  `OnInspectorGUI` is modelled as that unconditional routine.
- Engine object access (`GameObject.Find`, `GetComponent`, `FindObjectOfType`,
  transform traversal) and the quaternion-to-Euler conversion are inputs, not modelled code.
- Transform hierarchy: child positions and rotations are taken as the world values the
  engine reports after the reset. The model does not compute how the reset moves them.
  It also does not model the case where the `Level` component and the object named
  "Level" are different objects.
- `PrefabNames.IndexOfSpace` models `IndexOf(" ")` (line 49) as an ordinal search. The
  .NET call is culture-sensitive, while `Contains(" ")` (line 47) is ordinal. For a name
  holding a space followed by a combining mark, `Contains` can be true while `IndexOf`
  returns -1. `Substring(0, -1)` then throws, so the routine may fail there. The model
  does not capture that failure.
- `SavePaths.Combine` models `Path.Combine` with `/` as the only separator. It leaves out
  Windows separators, drive letters and the invalid-character checks of older runtimes.
- A null `levelName` (C# `null + ".json"` is `".json"`) is not modelled.
- Sprite defaults: the declaration of the item type is not part of this model. The model
  assumes that declaration gives the sprite fields no initializers, so they start at C#'s
  field defaults (empty layer, order 0, colour (0,0,0,0)). The null string is represented by `""`.
- The other scripts (player controller, camera lerp, hazard, goal, game manager, player
  name, timer, rotation) are per-frame engine logic, physics, audio and UI.
- The level loader, level list and score ledger are not part of this model. The routine
  modelled here neither loads levels nor records scores.
