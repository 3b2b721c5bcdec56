# Interactive portfolio scene, modelled in Dafny

This project models the interactive scene of a three.js portfolio (`src/three/`) as a
state machine and proves properties of it. The model has five parts.

- **Lamp click** (`lighting_handler.dfy`). A click on a node whose name contains
  "lampe" (any case) does four things, all chosen by the flag as it was before the
  click:
  - the bulbs among the clicked node's siblings get new emissive materials;
  - every top-level point and ambient light is rewritten;
  - the shadow light and the background are rewritten;
  - `state.lightIsOn` flips.

  The written values form a `Theme`. After a click that does not throw, the scene shows
  the theme for the new flag negated. From a state that shows it and whose next click on
  that lamp does not throw, for instance any state reached by a non-throwing click, two
  more clicks on the same lamp restore everything. The
  initial scene is not such a state: its shadow radius of 8 is never written back.
- **Model loading** (`models_loader.dfy`). The manifest starts one load per entry:
  objects first, then letters. A successful load re-centres the model and tags it. It
  turns the model if it is not a letter and classifies every mesh as a shadow receiver
  (name contains "sol") or a shadow caster. Then it appends a new pivot holding the
  model. An empty result or a loader error leaves the scene unchanged.
- **Pointer dispatch** (`event_handlers.dfy`). Pixels are mapped affinely onto [-1, 1]
  with y pointing up. Hovering turns the camera towards a tenth of that point. A click
  hands the nearest hit, if there is one, to the lamp handler.
- **Frame loop** (`animation.dfy`). Each frame:
  - stores the timestamp;
  - draws the scene once;
  - turns every top-level pivot whose first child is named like "vapeur" by
    pi · dt · 0.5 about y.

  Over many frames the turns add up to the turn for the total elapsed time.
- **Initial scene** (`scene_set_up.dfy`). A white background, an ambient light, a point
  light, and the point light "shadowLight". This is the "off" theme, except that the
  shadow radius is 8.

Shared pieces:

- `names.dfy` holds the case-insensitive name tests. A JavaScript `/word/i` test with an
  ASCII word is an ASCII-case-folded substring search.
- `scene_graph.dfy` holds the scene graph.
  - Nodes are values, because a parent owns its children exclusively.
  - A clicked object is a path of child indices from `scene.children`.
  - `Scene`, `Camera`, `Renderer`, `LightState` and `Animator` are classes, because
    the source reassigns their fields.
  - Colours are hex integers, and intensities, positions and angles are reals.
  - `Math.PI` is a positive constant. No proof depends on its digits.

A sibling named like "lampe_2" that is not a mesh has no material. In the source,
reading its emissive colour throws a `TypeError`. The model keeps that path:
- the siblings before it have already been updated;
- the theme and the flag are not updated;
- the click reports `threw`.

The doc comment of `retrieveData` (`src/three/modelsLoarder.js:9`) says its promise
resolves once every model is loaded. The code (`src/three/modelsLoarder.js:14-19`) only
starts the loads and returns. The model follows the code: `RetrieveData` returns the
started loads, and each completion is a separate later step (`OnLoadComplete`,
`AfterCompletions`).

## Model

| member | source | states |
|---|---|---|
| Names.ContainsCI | src/three/lightingHandler.js:14 | a case-insensitive name test holds exactly when the ASCII-folded pattern occurs at some offset of the name |
| Names.BulbNameIsLampName | src/three/lightingHandler.js:87 | every name the bulb pattern "lampe_2" matches is also matched by the lamp pattern "lampe", so clicking a bulb is a lamp click |
| SceneGraph.Scene.constructor | src/three/sceneSetUp.js:13 | a new scene has no background and no children |
| SceneGraph.Scene.Add | src/three/modelsLoarder.js:62 | `scene.add` appends the node as the last top-level child; nothing else changes |
| SceneGraph.Camera.LookAt | src/three/eventHandlers.js:16 | the camera's target becomes exactly the given point |
| SceneGraph.Renderer.Render | src/three/animation.js:19 | one frame is recorded, holding the scene and camera target as they are at the call |
| LightingHandler.Themed | src/three/lightingHandler.js:31-40 | a top-level light afterwards shows the theme; a light that already shows it is unchanged; only the light's kind fields change; a point light not named like "shadowLight" keeps its shadow radius; non-lights are untouched |
| LightingHandler.Lit | src/three/lightingHandler.js:86-90 | a bulb mesh afterwards has the theme's emissive colour and intensity; every other sibling is unchanged |
| LightingHandler.FirstThrow | src/three/lightingHandler.js:86-89 | the index of the first sibling named like a bulb without a material, or the sibling count when there is none; no earlier sibling throws |
| LightingHandler.UpdateLight | src/three/lightingHandler.js:57-60 | a point or ambient light gets the low intensity and colour when the flag is on and the high ones when it is off; the shadow radius, every other field and non-lights are unchanged |
| LightingHandler.UpdateShadowLight | src/three/lightingHandler.js:71-74 | a point light gets shadow radius 20 and colour 0x252526 when the flag is on, 10 and 0xf7e3c1 when off (the theme's shadow values); its intensity is kept |
| LightingHandler.UpdateLightMaterial | src/three/lightingHandler.js:103-111 | the material becomes emissive (0.1, 0.05, 0) at intensity 1 when the flag is on and (1, 0.573, 0) at intensity 17 when off, which is the theme's bulb material |
| LightingHandler.ToggleTheme | src/three/lightingHandler.js:30-42 | every top-level child is replaced by its themed version for the current flag, nested nodes are untouched, and the background becomes 0x4e5257 (flag on) or 0xffffff (flag off) |
| LightingHandler.SwitchOffTheLight | src/three/lightingHandler.js:85-92 | the clicked node's siblings, itself included, are lit up to the first sibling that throws, the rest of the scene is unchanged, and the result reports whether a throw happened |
| LightingHandler.HandleLampClick | src/three/lightingHandler.js:13-19 | the new scene, flag and throw report are exactly `LampClick` of the old ones; a non-lamp click changes neither the scene nor the flag |
| LightingHandler.FirstThrowByNames | src/three/lightingHandler.js:87-88 | whether and where the bulb loop throws depends only on the siblings' names and mesh-or-not shape |
| LightingHandler.ThemeKeepsShape | src/three/lightingHandler.js:31-40 | the theme keeps every top-level child's name, shape and children |
| LightingHandler.SwitchedKeepsShape | src/three/lightingHandler.js:86-91 | lighting the bulbs keeps every sibling's name and shape |
| LightingHandler.ThemeKeepsNested | src/three/lightingHandler.js:31-40 | the theme leaves every nested list of children as it was, and commutes with replacing a nested list |
| LightingHandler.ThemeAndBulbsCommute | src/three/lightingHandler.js:15-16 | theming the top level and lighting the bulbs of a nested list can happen in either order |
| LightingHandler.ThemeTwice | src/three/lightingHandler.js:30-42 | applying a theme over another theme gives the second theme alone |
| LightingHandler.ThemeShown | src/three/lightingHandler.js:30-42 | a theme applied to a scene that already shows it changes nothing |
| LightingHandler.BulbsTwice | src/three/lightingHandler.js:85-92 | lighting the same siblings twice gives the second lighting alone |
| LightingHandler.BulbsShown | src/three/lightingHandler.js:85-92 | lighting siblings that already show a theme's bulbs changes nothing |
| LightingHandler.ClickKeepsSiblings | src/three/lightingHandler.js:13-19 | after a click the clicked node's siblings keep their names and shapes, so the same path leads to the same lamp |
| LightingHandler.ClickShowsPreClickTheme | src/three/lightingHandler.js:13-18 | a lamp click that does not throw flips the flag exactly once, and afterwards the background, every top-level light and every sibling bulb show the theme of the pre-click flag, that is the theme for the new flag negated |
| LightingHandler.DoubleClickRestores | src/three/lightingHandler.js:13-18 | from a state that shows the theme for the negated flag and whose next click on the lamp does not throw, two clicks on the same lamp restore the flag and the whole scene, and the second does not throw either |
| LightingHandler.ClicksAlternateAfterFirst | src/three/lightingHandler.js:13-18 | after one lamp click that does not throw, from any state, the next two clicks on the same lamp do not throw and bring back the state that click left |
| LightingHandler.ShadowRadiusAfterClick | src/three/lightingHandler.js:34-35 | after a lamp click that does not throw, every top-level shadow light has radius 20 (flag was on) or 10 (flag was off), so the initial radius 8 does not come back |
| ModelsLoader.RetrieveData | src/three/modelsLoarder.js:14-19 | with no manifest no load starts; otherwise exactly one load starts per entry, all objects with isLetter false in order, then all letters with isLetter true in order |
| ModelsLoader.ShadowsSetUp | src/three/modelsLoarder.js:83-94 | the traversal changes nothing of the node but its shadow flags and its children, and keeps the number of children; that every node below is classified the same way is stated by `ShadowsSetUpVisitsEveryNode` |
| ModelsLoader.ShadowsAlongPath | src/three/modelsLoarder.js:85-93 | the traversal keeps every path valid or invalid, and the children reached by a path are the traversal of the original ones |
| ModelsLoader.ShadowsSetUpVisitsEveryNode | src/three/modelsLoarder.js:85-93 | every node of the subtree, the root included, is classified: a "sol" mesh gains receiveShadow, any other mesh gains castShadow, nothing else changes and no flag is cleared |
| ModelsLoader.OneShadowRolePerMesh | src/three/modelsLoarder.js:86-91 | a mesh with no shadow flags ends up with exactly one, receiveShadow exactly when its name contains "sol"; non-mesh nodes keep their flags |
| ModelsLoader.PivotPlacement | src/three/modelsLoarder.js:42-59 | for `PivotFor` and `Prepared`, the pivot sits at the entry position moved 0.2 along -x, turned -pi/2 about y, and holds only the model; the model is moved by minus the box centre, tagged with its list, turned -0.15 about y unless it is a letter, and shadow-classified throughout |
| ModelsLoader.OnePivotPerLoadedModel | src/three/modelsLoarder.js:38-70 | in any completion order the scene keeps its children and gains exactly one pivot per successful load, each holding exactly one child and turned -pi/2 |
| ModelsLoader.OnLoadComplete | src/three/modelsLoarder.js:36-71 | the scene's children become `AfterCompletion` of the old ones: a success with a model appends its pivot, and an empty result or an error leaves the scene unchanged; the background is never touched |
| EventHandlers.NormalizedMousePosition | src/three/eventHandlers.js:84-90 | the left edge maps to -1, the right edge to 1, the top edge to 1, the bottom edge to -1 and the centre to 0, and the pixel can be recovered from the result |
| EventHandlers.NormalizeRoundTrip | src/three/eventHandlers.js:87-88 | normalizing the pixel of a normalized position gives that position back, so the map is a bijection |
| EventHandlers.NormalizedInRange | src/three/eventHandlers.js:79-89 | a pointer inside a canvas of positive size normalizes into [-1, 1] on both axes |
| EventHandlers.HoverTargetBounded | src/three/eventHandlers.js:15-16 | for a pointer inside the canvas the hover target lies in [-0.1, 0.1] on x and y with z = 0, and ten times it is the normalized pointer |
| EventHandlers.OnCursorMove | src/three/eventHandlers.js:14-17 | the camera looks at exactly a tenth of the normalized pointer position, in the plane z = 0 |
| EventHandlers.OnlyFirstHitCounts | src/three/eventHandlers.js:44-48 | two hit lists with the same first object dispatch alike whatever follows it, and an empty list changes nothing |
| EventHandlers.OnCanvasClick | src/three/eventHandlers.js:44-48 | the outcome is `ClickDispatch` of the old state: an empty hit list changes nothing, otherwise it is the lamp click on the first hit |
| EventHandlers.LampBaseClickLightsBulb | src/three/eventHandlers.js:44-47 | a click whose nearest hit is the base of a two-part lamp flips the flag, sets the background and gives the bulb emissive intensity 1 (flag was on) or 17 (flag was off) |
| EventHandlers.TableClickChangesNothing | src/three/eventHandlers.js:44-47 | a click whose nearest hit is named "table" changes nothing |
| Animation.DeltaTime | src/three/animation.js:16 | the frame time in seconds is the timestamp difference in milliseconds divided by 1000 |
| Animation.TickChildren | src/three/animation.js:21-26 | the frame's pass keeps the number of top-level children and changes only rotation.y; a pivot whose first child is named like "vapeur" turns by pi · dt · 0.5, and every other pivot, including one with no children, is unchanged |
| Animation.Animator.constructor | src/three/animation.js:12-29 | the loop after its untimed first call and its first real frame holds that frame's timestamp as the previous time |
| Animation.Animator.UpdateAnimation | src/three/animation.js:14-27 | the previous time becomes the timestamp, exactly one frame is drawn showing the scene before any rotation, the children become the frame pass for the elapsed time, and the background is unchanged |
| Animation.RunTicks | src/three/animation.js:14-27 | the reference for a run of frames, one per timestamp, each the frame pass of `TickChildren`, which is what successive `UpdateAnimation` calls compute; its own contract only keeps the number of top-level children, and its properties are in `RotationTelescopes` |
| Animation.RotationTelescopes | src/three/animation.js:16-24 | after any run of frames a "vapeur" pivot has turned by pi · 0.5 · (last timestamp - start) / 1000, other pivots have not turned, and nothing but rotation changed |
| Animation.FullTurnInFourSeconds | src/three/animation.js:16-24 | 4000 ms of frames, split in any way, turn a "vapeur" pivot by exactly 2 pi |
| SceneSetUp.CreateScene | src/three/sceneSetUp.js:11-31 | a new scene with background 0xffffff and, in order, the ambient light (0xffffff, 1.3), the point light (0xf7e3c1, 2) at (-0.6, 0.2, 0.8), and the shadow-casting point light "shadowLight" (0xf7e3c1, 2, radius 8) at (0.5, 0.6, -0.4) |
| SceneSetUp.OnlyShadowLightCastsShadow | src/three/sceneSetUp.js:23-28 | of the initial lights exactly the third has a name containing "shadowLight", and it is the only one that casts shadows |
| SceneSetUp.InitialSceneIsOffTheme | src/three/sceneSetUp.js:14-28 | applying the theme for flag off to the initial lights changes only the shadow light's radius, from 8 to 10, and the initial background is that theme's background |

## Left out

- Raycasting is not modelled (`Raycaster`, `unproject`, `getWorldPosition`). `OnCanvasClick` receives the engine's intersection list, nearest first.
- `onCanvasClick` normalizes the pointer only to build the ray, so that step is left out along with the ray.
- GLTF decoding and `Box3.setFromObject` are not modelled. A completed load carries the decoded scene and its bounding-box centre.
- The manifest fetch (`src/api/getData.js`) is network I/O and is not part of this model. Its result is an input; `None` stands for the `undefined` it resolves to on a failed request, and then no load starts.
- Asynchrony is not modelled. `requestAnimationFrame` scheduling and the interleaving of load completions with frames are left out. Each completion and each frame is one sequential step, and `AfterCompletions` takes completions in any order.
- Animation.Animator.constructor: NaN is not modelled. The untimed first call of `updateAnimation` (`src/three/animation.js:29`) computes a NaN delta time and sets the previous time to `undefined`. So the first real frame computes a NaN delta time too. Any "vapeur" pivot present during either frame gets a NaN rotation that later frames keep. The modelled frames start at the second real timestamp, and the constructor's previous time is the first real one.
- `createRenderer`, `createCamera` and `onWindowResize`: WebGL, DOM and window-size plumbing. They are not modelled.
- Floating point is not modelled. Numbers are exact reals, and the value of pi is not used by any proof.
- `THREE.Color` is recorded as the hex value or RGB triple it is given. Colour-space conversion is left out.
- Materials are values held by their mesh. Two meshes sharing one material object (aliasing) are not modelled.
- Meshes with an array of materials, and materials without an emissive colour, are not modelled.
- `console.error` logging is left out.
- NormalizedMousePosition: requires a canvas of non-zero width and height. The source divides by both, and a zero-size canvas gives infinities or NaN, which the model does not represent.
- ShadowsSetUp: the in-place `traverse` callback is modelled as a recursive function that rebuilds the subtree, because nodes are values.
