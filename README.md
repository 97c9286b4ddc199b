# ProjectionPickerViewModel in Dafny

A model of Cesium's `ProjectionPickerViewModel`, the view model behind the
toolbar button that switches a scene's camera between a perspective and an
orthographic frustum. It keeps a drop-down visibility flag, a cached
"is orthographic" flag, two tooltip strings and a derived `selectedTooltip`,
and exposes three commands: toggle the drop-down, switch to perspective,
switch to orthographic.

Files:

- `wrappers.dfy` — `Option` and `Result`.
- `host.dfy` — module `Host`: the `Frustum` datatype (`Perspective(aspectRatio, fov)` /
  `Orthographic(aspectRatio, width)`), the `Camera` and `Scene` objects the picker
  reads and writes in place, and `HostState`, a snapshot of them.
- `picker_spec.dfy` — module `PickerSpec`: the view model and its scene as a value
  (`PickerState`), one function per command, `ReplaceFrustum` for a frustum change
  made by code outside the picker, and lemmas relating them.
- `projection_picker.dfy` — module `ProjectionPicker`: the class
  `ProjectionPickerViewModel`, whose methods assign its fields and the camera's
  frustum in place and are proved to move `State()` exactly as the `PickerSpec`
  functions do.
- `picker_traces.dfy` — module `PickerTraces`: sequences of commands and outside
  frustum changes, and inductive lemmas about what they leave behind (the cached flag
  is whatever the last switch wrote; it stays accurate unless outside code intervenes;
  drop-down parity; the tooltips never change).
- `scenarios.dfy` — module `PickerScenarios`: client methods that use only the
  class's contracts (the 800x600 example, the stale-cache case, the missing scene).

The asymmetry of the source is modelled: the evaluator behind `selectedTooltip`
tests the variant of the camera's current frustum, while `_orthographic` is a cache
that only the two switches (and the constructor) write. `selectedTooltip` is modelled
as that evaluator run afresh on every read, so after an outside frustum change the
cached flag can be stale while the evaluator's answer follows the new frustum
(`PickerSpec.ExternalChangeLeavesCacheStale`, `PickerScenarios.StaleCacheExample`).
The value the program's view actually shows may lag behind; see the Knockout line
under "## Left out".

## Model

| member | source | states |
|---|---|---|
| PickerSpec.Init | Source/Widgets/ProjectionPicker/ProjectionPickerViewModel.js:37-66 | Construction fails with DeveloperError("scene is required.") exactly when the scene is missing; otherwise the cached flag agrees with the initial frustum variant, the drop-down is hidden and the tooltips are 'Perspective Projection' and 'Orthographic Projection' |
| ProjectionPicker.ProjectionPickerViewModel.Create | Source/Widgets/ProjectionPicker/ProjectionPickerViewModel.js:37-42 | A null scene yields the error and no view model; a present one yields a fresh view model bound to it whose state is Init's |
| ProjectionPicker.ProjectionPickerViewModel.constructor | Source/Widgets/ProjectionPicker/ProjectionPickerViewModel.js:44-66 | Binds the scene, sets `orthographic` to whether the camera's frustum is orthographic, hides the drop-down and sets the default tooltips |
| PickerSpec.Tooltip | Source/Widgets/ProjectionPicker/ProjectionPickerViewModel.js:77-82 | The selectedTooltip evaluator returns the orthographic tooltip when the current frustum is orthographic and the perspective tooltip otherwise |
| ProjectionPicker.ProjectionPickerViewModel.SelectedTooltip | Source/Widgets/ProjectionPicker/ProjectionPickerViewModel.js:77-82 | The same evaluator, run on the scene's camera object |
| PickerSpec.TooltipTracksLiveFrustum | Source/Widgets/ProjectionPicker/ProjectionPickerViewModel.js:77-82 | When the two tooltips differ, the selectedTooltip evaluator returns the orthographic one if and only if the live frustum is orthographic, and changing the cached flag never changes it |
| PickerSpec.ToggleDropDown | Source/Widgets/ProjectionPicker/ProjectionPickerViewModel.js:84-86 | Negates dropDownVisible and changes nothing else |
| ProjectionPicker.ProjectionPickerViewModel.ToggleDropDown | Source/Widgets/ProjectionPicker/ProjectionPickerViewModel.js:84-86 | Negates the field in place; the new state is PickerSpec.ToggleDropDown of the old |
| PickerSpec.ToggleTwiceRestores | Source/Widgets/ProjectionPicker/ProjectionPickerViewModel.js:84-86 | Toggling twice gives back the original state |
| PickerSpec.PerspectiveFor | Source/Widgets/ProjectionPicker/ProjectionPickerViewModel.js:91-93 | The installed frustum is perspective, its aspect ratio times the buffer height is the buffer width, and its fov is toRadians(60) |
| PickerSpec.SwitchToPerspective | Source/Widgets/ProjectionPicker/ProjectionPickerViewModel.js:88-95 | Replaces only the frustum (with PerspectiveFor) and clears the cached flag; afterwards the cache is accurate and the selectedTooltip evaluator returns the perspective tooltip; drop-down and tooltips unchanged |
| ProjectionPicker.ProjectionPickerViewModel.SwitchToPerspective | Source/Widgets/ProjectionPicker/ProjectionPickerViewModel.js:88-95 | In place: the camera's frustum becomes PickerSpec.PerspectiveFor of the scene, Perspective(width / height, toRadians(60)), the flag becomes false, and the new state is PickerSpec.SwitchToPerspective of the old |
| PickerSpec.OrthographicFor | Source/Widgets/ProjectionPicker/ProjectionPickerViewModel.js:100-102 | The installed frustum is orthographic, its aspect ratio times the buffer height is 0.3 times the buffer width, and its width is the cartographic height under an identity transform and the position's magnitude otherwise |
| PickerSpec.SwitchToOrthographic | Source/Widgets/ProjectionPicker/ProjectionPickerViewModel.js:97-104 | Replaces only the frustum (with OrthographicFor) and sets the cached flag; afterwards the cache is accurate and the selectedTooltip evaluator returns the orthographic tooltip; drop-down and tooltips unchanged |
| ProjectionPicker.ProjectionPickerViewModel.SwitchToOrthographic | Source/Widgets/ProjectionPicker/ProjectionPickerViewModel.js:97-104 | In place: the camera's frustum becomes PickerSpec.OrthographicFor of the scene, orthographic with aspect width / height * 0.3 and the two-branch width, the flag becomes true, and the new state is PickerSpec.SwitchToOrthographic of the old |
| PickerSpec.ReplaceFrustum | Source/Widgets/ProjectionPicker/ProjectionPickerViewModel.js:77-82 | Outside code installing a frustum changes the frustum that the selectedTooltip evaluator reads and none of the view model's own fields |
| Host.Camera.SetFrustum | Source/Widgets/ProjectionPicker/ProjectionPickerViewModel.js:78 | The same outside change on the camera object: only its frustum changes |
| PickerSpec.SwitchSyncsCacheAndTooltip | Source/Widgets/ProjectionPicker/ProjectionPickerViewModel.js:77-104 | After either switch, the cached flag picks the same tooltip as selectedTooltip |
| PickerSpec.SwitchIgnoresPriorFrustum | Source/Widgets/ProjectionPicker/ProjectionPickerViewModel.js:88-104 | A switch's outcome does not depend on the frustum it replaces: repeating a switch on an unchanged host, or perspective-orthographic-perspective, gives the same state as one switch |
| PickerSpec.ExternalChangeLeavesCacheStale | Source/Widgets/ProjectionPicker/ProjectionPickerViewModel.js:77-103 | After switchToOrthographic and an outside perspective frustum, the cached flag is still true and thus wrong, while selectedTooltip is the perspective tooltip |
| PickerTraces.RunAppend | Source/Widgets/ProjectionPicker/ProjectionPickerViewModel.js:84-104 | Applying two event sequences one after the other equals applying their concatenation |
| PickerTraces.CachedFlagIsLastSwitch | Source/Widgets/ProjectionPicker/ProjectionPickerViewModel.js:45-103 | After any sequence of events, the cached flag is the value the last switch wrote (false for perspective, true for orthographic), or its initial value if no switch ran |
| PickerTraces.DropDownParity | Source/Widgets/ProjectionPicker/ProjectionPickerViewModel.js:84-86 | After any sequence, the drop-down is visible exactly when it started visible xor an odd number of toggles ran |
| PickerTraces.RunKeepsTooltipsAndHost | Source/Widgets/ProjectionPicker/ProjectionPickerViewModel.js:59-104 | No command changes the tooltips or any host quantity other than the frustum |
| PickerTraces.CacheStaysAccurate | Source/Widgets/ProjectionPicker/ProjectionPickerViewModel.js:45-103 | Without outside frustum changes, a cache that agrees with the live frustum keeps agreeing |
| PickerTraces.AccurateAfterSwitch | Source/Widgets/ProjectionPicker/ProjectionPickerViewModel.js:88-104 | After a switch, whatever came before, the cache is accurate until outside code replaces the frustum |
| PickerTraces.InitThenCommandsAccurate | Source/Widgets/ProjectionPicker/ProjectionPickerViewModel.js:45-104 | From construction, any sequence of the picker's own commands keeps the cached flag and selectedTooltip in agreement |
| PickerScenarios.OrthographicExample | Source/Widgets/ProjectionPicker/ProjectionPickerViewModel.js:97-104 | 800x600 buffer, identity transform, height 1000: the orthographic frustum has width 1000 and aspect ratio 0.4 |
| PickerScenarios.TransformedFrameExample | Source/Widgets/ProjectionPicker/ProjectionPickerViewModel.js:102 | Under a non-identity transform the orthographic width is the position's magnitude |
| PickerScenarios.StaleCacheExample | Source/Widgets/ProjectionPicker/ProjectionPickerViewModel.js:77-103 | On the objects: after an outside frustum change the cached flag is stale and selectedTooltip is still right |
| PickerScenarios.RoundTripExample | Source/Widgets/ProjectionPicker/ProjectionPickerViewModel.js:88-104 | Perspective, orthographic, perspective leaves Perspective(width / height, toRadians(60)) and a false flag |
| PickerScenarios.MissingSceneExample | Source/Widgets/ProjectionPicker/ProjectionPickerViewModel.js:39-41 | Creating the view model without a scene reports "scene is required." |

## Left out

- Knockout observability (`knockout.track`, `knockout.defineProperty`): tracked fields are plain fields and `selectedTooltip` is its evaluator, a function of the state evaluated on every read. Knockout caches a computed property and re-runs its evaluator only when an observable it read changes; the evaluator reads the tracked tooltips but `camera.frustum` is a plain, untracked property, so in the program the value bound by the view may keep showing the old tooltip after a frustum change (even one made by the picker's own switches) until a tooltip changes. The model's statements about `selectedTooltip` are about the evaluator, not about that cached value.
- Frustum classes other than the two the picker builds: the source tests `instanceof OrthographicFrustum`, so a frustum of any other class (an off-center frustum installed by other camera code, for one) sets the cached flag to false and selects the perspective tooltip. `Host.Frustum` has only the two variants, so the host is limited to those two classes.
- The `createCommand` wrappers and their `canExecute` flag: only the command bodies are modelled, as methods.
- `Matrix4.equals`, `Cartesian3.magnitude`, `CesiumMath.toRadians` and the frustum classes are library code: the model reads a boolean "transform is identity", a position magnitude and a cartographic height from the camera, and toRadians(60) is the uninterpreted constant `Host.SixtyDegreesInRadians`.
- Floating point: all quantities are `real`, so rounding of `width / height * 0.3` is not modelled.
- PickerSpec.SwitchToPerspective, PickerSpec.SwitchToOrthographic and the class methods of the same names require a non-zero drawing-buffer height; the source divides without a check, producing Infinity or NaN in JavaScript, which `real` cannot express. The event sequences of `PickerTraces` need a non-zero height only when they contain a switch; toggles and outside frustum changes run on any buffer.
- The frustum is a value that is replaced whole; the source creates a new frustum object and then assigns its `aspectRatio`, `fov` or `width`. Nothing else can observe the object between those assignments, so the model assigns the finished value.
- `Scene.camera` is fixed for the scene's lifetime; rebinding the scene's camera is not modelled.
- `destroy` and `isDestroyed`: `destroy` hands the object to `destroyObject`, library code that is not part of this model, and `isDestroyed` as written always returns false; neither is modelled.
- The `scene` getter, the three command getters, the rendering and the view layer.
- The debug-only nature of the missing-scene check (it sits between `includeStart('debug')` pragmas and is stripped from release builds): the model always performs it.
