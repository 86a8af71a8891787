# threejs-fox: a verified model of the component's own logic

The repository is an Angular component (`AppComponent`) that shows a fox
model in a three.js scene, with spotlights and a dat.GUI debug panel. Most of
the component hands work to three.js, the glTF loader and dat.GUI. Three
parts of it keep state of their own, and this project models them in Dafny:

- **The animation controller** (`animation.dfy`, module `Animation`). It
  covers the clip table that `createFox` builds from the asset's animation
  list, the `selectedAnimation` getter, `setFoxAnimation`, and
  `setAnimationAction`. The state is an optional mixer, an optional current
  action, an optional clip table and an optional selected key (`walk` at
  first). An action is identified by its mixer and its clip, because
  `mixer.clipAction(clip)` hands out one action per clip and mixer. What plays
  is a set of actions that only `Stop` and `Play` steps change. Every step is
  also recorded in a ghost event log, so the model can state that the old action
  is stopped before a new one is considered. The state lives in the class
  `AnimationController`, whose methods update its fields in place. Each
  method is proved to match a function on a `Controller` value (`ActionStep`,
  `FoxStep`, `CreateFoxStep`, `SelectStep`), and those functions carry what
  the component promises: at most one action plays; it is the action on the
  current mixer for the selected key's clip whenever both exist; otherwise
  nothing plays.
- **The asset-load counter** (`loading.dfy`, module `Loading`). This is the
  `onLoadCallback` closure of `loadTextures`. It stores each resource in
  `resourses` under its name, increments `resourcesLoaded`, and resolves the
  Promise when the count equals `resourcesToLoad` (1 glTF asset plus 2
  textures, so 3). The class `TextureLoad` holds the map, the counter, the
  constant total, a `resolved` flag and, as a ghost field, the number of
  calls to the resolve function. The function `Deliver` replays a sequence of callbacks. The lemmas
  say what that sequence leaves behind.
- **The light broadcast** (`lights.dfy`, module `Lights`). These are the
  `onChange` handlers for `lightIntensity`, `lightAngle` and `penumbra`. Each
  writes one value into one field of every spotlight in `lights`. Each is a
  loop over the list of `SpotLight` objects. Its frame allows it to change
  only that field, and its postconditions say that the other two fields keep
  their values.

three.js objects (clips, mixers, loaded resources) are opaque `nat` handles.
TypeScript's `undefined` is `Option.None` (`optional.dfy`).

Four behaviours of the code that the model keeps as written:

- A selection plays a new action every time the selected key resolves to a
  clip, not only for the final selection of a burst. Each switch adds one
  `Stopped` and one `Played` event to the log. Only the last action is left
  playing (`RunOpsPlaysLastTarget`, `WalkRunIdle`).
- When the key resolves to no clip, the `action` field is not cleared. It
  still names the stopped action. Nothing plays.
- A failed fetch is not an error. Its callback never arrives, so the counter
  never reaches the total and the load never resolves (`DeliverCounts`:
  fewer than three callbacks never resolve). No `LoadError` exists.
- The clip table is not checked against the asset. `createFox` reads
  `animations[0..2]` whatever the list's length. A short list gives the
  missing keys an undefined clip, under which nothing plays. `BuildClipTable`
  models this without a precondition.

## Model

| member | source | states |
|---|---|---|
| `Animation.BuildClipTable` | src/app/app.component.ts:283-287 | the table has every key; idle, walk and run map to `animations[0]`, `[1]` and `[2]`, and a key's clip is undefined exactly when the list is too short for it |
| `Animation.SelectedClip` | src/app/app.component.ts:54-60 | undefined when no key is selected or the table is not built; otherwise the table's clip for the selected key, and defined exactly when that clip is |
| `Animation.Emit` | src/app/app.component.ts:306-312 | a `stop()` step takes the action out of the playing set and a `play()` step adds it; the step is appended to the log, the component's fields do not change, and the playing set stays equal to what the log leaves playing |
| `Animation.ActionStep` | src/app/app.component.ts:305-314 | the old action, if any, is stopped first, whatever is selected; a new action on the current mixer for the selected clip is played and becomes current exactly when a mixer and a clip exist; otherwise `action` still names the old, stopped action; the invariant is kept, and afterwards exactly the target action plays, or nothing |
| `Animation.FoxStep` | src/app/app.component.ts:300-303 | the new mixer is bound before the selection, so the action that plays is on the new mixer; nothing plays when the key has no clip |
| `Animation.CreateFoxStep` | src/app/app.component.ts:282-298 | builds the clip table, then `setFoxAnimation`; afterwards the selected key's clip `animations[index]` plays alone on the new mixer, or nothing when the list is too short or no key is selected |
| `Animation.SelectStep` | src/app/app.component.ts:213-217 | the selector sets the key, then `setAnimationAction`; afterwards exactly the new key's action plays, if a mixer and a clip exist |
| `Animation.StepPlaysTarget` | src/app/app.component.ts:297-314 | every outside operation ends in `setAnimationAction`, so after it exactly the target action plays |
| `Animation.RunOpsPlaysLastTarget` | src/app/app.component.ts:305-314 | after any sequence of fox creations and selections the invariant holds and at most one action plays; the selected key is the last selection's key; after a nonempty sequence the final state's target plays alone and no other action plays |
| `Animation.SelectionsBeforeFox` | src/app/app.component.ts:54-68 | before `createFox` there is no clip table and no mixer; from any log, any number of selection changes plays nothing, stops nothing, leaves the playing set and the log as they were, and changes only the key |
| `Animation.DefaultPlaysWalk` | src/app/app.component.ts:82-86 | with the default key `walk` and at least the walk clip in the asset, `createFox` leaves `animations[1]` alone playing, as the current action, after a single play step |
| `Animation.WalkRunIdle` | src/app/app.component.ts:213-217 | switching walk, then run, then idle leaves `animations[0]` alone playing; the log shows the walk and run actions each played and then stopped |
| `Animation.ClearingStopsAll` | src/app/app.component.ts:305-313 | clearing the key stops the current action, plays nothing and keeps the stopped action in the `action` field |
| `Animation.SwitchLogsStopThenPlay` | src/app/app.component.ts:305-314 | a switch while an action is current and the new key has a clip adds exactly a stop of the old action followed by a play of the new one, which becomes current |
| `Animation.SwitchesStopOncePerSelection` | src/app/app.component.ts:305-314 | once an action is current, N selections whose keys have clips add exactly N stops, N plays and 2N log entries, after the old log |
| `Animation.FoxThenSwitches` | src/app/app.component.ts:213-217 | after `createFox` with all three clips and then N selections of a key, the log holds exactly N stops and N + 1 plays |
| `Animation.AnimationController.constructor` | src/app/app.component.ts:62-86 | the component starts with no mixer, no action, no clip table, `walk` selected and nothing playing |
| `Animation.AnimationController.Stop` | src/app/app.component.ts:307 | `action.stop()` removes the action from the playing set and logs the stop |
| `Animation.AnimationController.Play` | src/app/app.component.ts:312 | `action.play()` adds the action to the playing set and logs the play |
| `Animation.AnimationController.SetAnimationAction` | src/app/app.component.ts:305-314 | updates the fields in place exactly as `ActionStep` says, keeps the invariant, and leaves exactly the target action playing |
| `Animation.AnimationController.SetFoxAnimation` | src/app/app.component.ts:300-303 | updates the fields in place as `FoxStep` says and keeps the invariant |
| `Animation.AnimationController.CreateFox` | src/app/app.component.ts:282-298 | updates the fields in place as `CreateFoxStep` says and keeps the invariant |
| `Animation.AnimationController.SelectAnimation` | src/app/app.component.ts:213-217 | updates the fields in place as `SelectStep` says and keeps the invariant |
| `Loading.AssetNamesAreDistinct` | src/app/app.component.ts:145-154 | the requested assets are `fox`, `floorColor` and `floorNormal`, three distinct names, and the total to load is 3 |
| `Loading.OnLoad` | src/app/app.component.ts:157-164 | one callback stores the resource under its own name, adds exactly one to the count, and resolves the Promise, with one call to the resolve function, exactly when the count reaches the total of 3; an earlier resolution stays |
| `Loading.DeliverCounts` | src/app/app.component.ts:154-164 | after n callbacks the counter is n; the map holds, for every name called back, the resource its latest callback delivered, and no other name; the load is resolved exactly when n reached the total, the resolve function was called once, and fewer callbacks never resolve |
| `Loading.ResolvesIffAllArrived` | src/app/app.component.ts:145-176 | when each callback is for a distinct requested asset, the load resolves exactly when every asset has been called back, and then the fox and both floor textures are in the map |
| `Loading.TextureLoad.constructor` | src/app/app.component.ts:154-155 | the map is empty, the counter zero, the Promise unresolved, and the total is 3 |
| `Loading.TextureLoad.Resolve` | src/app/app.component.ts:162 | `res()` marks the Promise resolved and counts the call |
| `Loading.TextureLoad.OnLoadCallback` | src/app/app.component.ts:157-164 | the resource is stored under its own name, the counter goes up by exactly one, and the Promise becomes resolved exactly when the counter equals the total |
| `Lights.SpotLight.constructor` | src/app/app.component.ts:257-258 | a spotlight starts with the intensity, angle and penumbra it is given |
| `Lights.SetIntensity` | src/app/app.component.ts:219-223 | every spotlight in `lights` gets the new intensity; angle and penumbra do not change, and only the lights' intensity fields may be written |
| `Lights.SetAngle` | src/app/app.component.ts:225-229 | every spotlight in `lights` gets the new angle; intensity and penumbra do not change, and only the lights' angle fields may be written |
| `Lights.SetPenumbra` | src/app/app.component.ts:231-235 | every spotlight in `lights` gets the new penumbra; intensity and angle do not change, and only the lights' penumbra fields may be written |

## Left out

- WebGL rendering, the `tick` loop through `requestAnimationFrame`, `mixer.update`
  and `OrbitControls` damping: foreign library calls inside an endless loop
  that the host drives.
- Fetching through `GLTFLoader` and `TextureLoader`, and the Promise's
  continuation (`setGrassTextures`, `createFox` after the load): I/O and
  asynchrony. A callback is an input to `OnLoadCallback`. The asset paths are
  not modelled, only the names.
- Resize handling and the aspect ratio: window size queries and
  floating-point division.
- Scene construction: the plate, the spotlights' positions, the shadow
  settings, the ambient light, the fox's scale and its `traverse` shadow
  flags, `createShadowSpotlight` apart from the three tuned parameters, and
  `createLights`' assignment of the three lights to `lights`. This is
  declarative configuration of library objects. The light handlers take the
  list of spotlights as a parameter.
- `setGrassTextures` and `setEnvMap`: material assignment through library
  types. The environment-map path is commented out in the source.
- The dat.GUI widgets, their ranges and steps, dat.GUI's own write of the new
  value into the `debugger` record, and the Angular decorators. Only the
  handlers' effects are modelled.
- Animation blending, fading and time: three.js's mixer is not modelled. An
  action is only playing or not.
