# ardemo glue logic in Dafny

The ardemo repository is a browser AR demo. A webcam feed goes through
THREEx (AR.js) marker detection to a THREE.js renderer, and a rotating cone
is drawn on the "hiro" marker. Detection, pose estimation, sizing rules and
rendering belong to those libraries. This project models the glue around
them, as it appears in the three bootstrap variants:

- `aframe-ar.js`: the A-Frame adapter.
  - The `arjs` system creates the video source and the detection context,
    keeps their canvas sizes in step on resize, and runs one detection pass
    per frame (class `ArjsSystem.System`).
  - The `marker` component maps its `type/url/size/value` schema onto the
    marker-controls options (module `MarkerOptions`). It also watches the
    node's visibility and emits `markerFound` / `markerLost` on edges (class
    `MarkerComponent.Marker`, specified by module `VisibilityWatch`).
- `app.js`: the plain-script variant.
  - Its diagnostics are the script-tag order check, the THREE / THREEx
    presence check, and the asset probes (module `Preflight`).
  - Its bootstrap is class `AppBootstrap.Session`. `init` is gated on the
    probes. A first resize handler does not see the context. After the
    context arrives it is swapped for one that does. Then comes the frame
    loop.
- `src/main.ts`: the bundled-module variant (class `MainBootstrap.Page`).
  One resize handler reads the live context. Its frame loop detects only
  when `ready` is truthy, but rotates and renders on every frame.

The library objects are abstract values (module `ArDevices`):
- a source with a `ready` flag (true, false or undefined) and an element size;
- the renderer canvas size;
- an optional context, which holds an optional `arController` canvas size.

The following calls into the libraries are appended to an effect log, in
the order the glue makes them: resize element, copy to renderer, copy to
controller, update, rotate, render, copy projection, debug GUI. No other
call is logged: not, for example, `renderer.setSize`, `setClearColor`,
`scene.add`, `markerRoot.add`, `appendChild`, `arSource.init`,
`arContext.init`, `dispose` or the constructors. Where their outcome
matters it is part of the state the methods set. Events from outside are methods
the environment calls. These are the init callbacks, window resizes, timers
that fire, frames, the media pipeline writing `ready`, and the detection
pass writing the node's visibility.

Where the design description and the code disagree, the model follows the code:
- When `ready === false`, `app.js` does not render at all (app.js:179). Of the two
  scripts that call `render` themselves, only `src/main.ts` still renders
  while the source is not ready (in the A-Frame variant A-Frame's own loop
  renders).
- The description says non-numeric barcode text becomes 0. `parseInt` gives
  NaN for such text, so the model claims 0 only for falsy values.
- The `app.js` and `src/main.ts` resize handlers have no guard for a missing
  source. They exist only once the source does. Only the A-Frame system's
  handler checks for it.
- On teardown only the A-Frame system unregisters its resize listener
  (aframe-ar.js:98). `app.js` unregisters its first handler only to swap it
  for the second (app.js:155); `src/main.ts` never unregisters.

## Model

| member | source | states |
|---|---|---|
| ArDevices.SyncSizes | app.js:95-101 | the calls are exactly resize element, copy to renderer, and third a copy to the controller canvas only when the handler sees a context that has an `arController` (so with a null context only the first two happen); the element and renderer canvas get the measured size, readiness and context presence are unchanged, a context not copied to is left as it was, and the three sizes agree whenever the controller copy happens |
| ArDevices.ContextAwareResizeSynchronises | src/main.ts:21-28 | a handler that reads the live context leaves element, renderer and (if present) controller canvas the same size whatever they were before, with effects in the order element, renderer, controller |
| VisibilityWatch.Edge | aframe-ar.js:159-167 | a watcher call emits `markerFound` exactly on false→true, `markerLost` exactly on true→false, nothing when visibility is unchanged |
| VisibilityWatch.EventsOfSnoc | aframe-ar.js:170-173 | each further sampled frame appends exactly what one watcher call emits, and `last` becomes that frame's sample |
| VisibilityWatch.EventsAlternate | aframe-ar.js:159-167 | over any visibility sequence the emitted events strictly alternate; from the initial state the first is `markerFound` |
| VisibilityWatch.NoRepeatedEvent | aframe-ar.js:159-167 | two consecutive events are never the same |
| VisibilityWatch.FoundPerRun | aframe-ar.js:157-167 | from the initial state the number of `markerFound` events equals the number of maximal visible runs, however long each run |
| VisibilityWatch.FoundLostBalance | aframe-ar.js:159-167 | found minus lost equals the change of `last` between start and end |
| VisibilityWatch.LostPerEndedRun | aframe-ar.js:157-167 | from the initial state one `markerLost` is emitted per visible run that has ended |
| VisibilityWatch.RepeatedSampleEmitsNothing | aframe-ar.js:159-167 | repeating a frame's sample anywhere in the sequence changes no event: the events depend only on visibility changes |
| VisibilityWatch.SteadySamplesEmitNothing | aframe-ar.js:161-166 | while visibility stays equal to `last` nothing is emitted |
| VisibilityWatch.VisibleRunFoundOnce | aframe-ar.js:157-162 | a marker visible from the first sampled frame for n ≥ 1 frames yields exactly one `markerFound` |
| VisibilityWatch.VisibleRunThenOcclusion | aframe-ar.js:157-167 | n visible frames then m ≥ 1 occluded frames yield exactly `markerFound`, `markerLost`, the loss already on the first occluded frame |
| MarkerOptions.ParseBarcode | aframe-ar.js:141 | `parseInt(value \|\| 0, 10)`: a falsy value gives 0, a number below 10^21 in magnitude gives itself and a larger one a single signed leading digit (its exponent form), all-digit text its decimal value; other text is left unparsed |
| MarkerOptions.ParseDecimalText | aframe-ar.js:141 | decimal text of n parses back to n (value "7" binds 7) |
| MarkerOptions.MapOptions | aframe-ar.js:131-147 | 'pattern' gives pattern options with the url, 'barcode' gives barcode options with the parsed value, any other type gives pattern options and one warning naming the type; size is always passed through |
| MarkerOptions.UnknownTypeFallsBackToPattern | aframe-ar.js:144-147 | an unknown type yields exactly the options 'pattern' would, plus one warning |
| MarkerOptions.FalsyBarcodeValueIsZero | aframe-ar.js:138-143 | in barcode mode a falsy value (0 or empty) binds barcode value 0 |
| MarkerOptions.DefaultsMapToPattern | aframe-ar.js:111-117 | the schema defaults (pattern, '', 1.0, 0) map to pattern options with url '' and size 1.0 and no warning |
| MarkerComponent.Marker.Init | aframe-ar.js:119-158 | without the system or its context: an error, no controls, no watcher; otherwise controls from the mapped options, the node set invisible and `last` false |
| MarkerComponent.Marker.Tick | aframe-ar.js:159-173 | with a watcher: `last` becomes the sampled visibility and exactly the edge's event is appended; without one (failed init or after remove) nothing changes |
| MarkerComponent.Marker.Remove | aframe-ar.js:175-181 | controls and watcher are cleared, so later ticks do nothing |
| MarkerComponent.Marker.RunFrames | aframe-ar.js:170-173 | driving frames with the samples `vis` appends exactly `EventsOf(last, vis)` and leaves `last` at the final sample |
| ArjsSystem.ResizeStep | aframe-ar.js:48-59 | without a source nothing happens; otherwise element, renderer and present controller canvas all get the measured size, in that order, and a context without `arController` is left as it was |
| ArjsSystem.ContextInitEffects | aframe-ar.js:74-83 | the projection matrix is copied first and once; the debug GUI is opened exactly when the schema enables it and THREEx provides one |
| ArjsSystem.DefaultsOpenNoDebugGui | aframe-ar.js:26-30 | with the schema defaults the context's init only copies the projection matrix, whether or not a debug GUI is available |
| ArjsSystem.TickEffects | aframe-ar.js:90-95 | a detection pass exactly when source and context exist and `ready` is not `false` |
| ArjsSystem.System.Init | aframe-ar.js:33-88 | set-up happens at once when the scene has loaded (source, resize listener, context without controller), otherwise nothing exists and set-up waits for 'loaded' |
| ArjsSystem.System.SceneLoaded | aframe-ar.js:86-87 | the 'loaded' event runs the set-up |
| ArjsSystem.System.Ready | aframe-ar.js:38-72 | source made, resize listener registered, context made without `arController` |
| ArjsSystem.System.OnResize | aframe-ar.js:48-65 | the new devices and effects are those of `ResizeStep` |
| ArjsSystem.System.ContextInitialized | aframe-ar.js:74-83 | the controller appears and the effects of `ContextInitEffects` are appended |
| ArjsSystem.System.WindowResize | aframe-ar.js:65 | while the handler is registered a window resize runs `ResizeStep`; once unregistered it changes nothing |
| ArjsSystem.System.Tick | aframe-ar.js:90-95 | appends exactly `TickEffects` of the current devices |
| ArjsSystem.System.Remove | aframe-ar.js:97-98 | the resize listener is unregistered, so by `WindowResize` later window resizes no longer reach the handler |
| Preflight.IndexOf | app.js:36-38 | -1 exactly when absent, otherwise the first index holding the entry |
| Preflight.CheckScriptOrder | app.js:32-49 | one warning per missing three/arjs/app tag and no other; the order is checked only when all three are present |
| Preflight.MissingInCheckOrder | app.js:39-41 | the missing-tag warnings come in check order: three, arjs, app |
| Preflight.OrderOkIff | app.js:42-47 | order OK exactly when the first three tag is strictly before the first arjs tag, which is strictly before the first app tag |
| Preflight.LaterTagsDoNotMatter | app.js:36-38 | once all three tags are present, appending tags changes neither warnings nor verdict |
| Preflight.CheckGlobals | app.js:52-74 | a missing THREE aborts before THREEx is checked, a missing THREEx aborts, otherwise init starts |
| Preflight.CheckAsset | app.js:78-91 | true exactly for an ok response; a non-ok status (reported with the status) and an exception both give false |
| Preflight.AssetGate | app.js:109-114 | both probes run, camera first, each report is exactly what `checkAsset` reports for that asset's outcome (confirmed, HTTP status, or exception), and init may continue only when both succeed |
| AppBootstrap.AddListener | app.js:102 | the listener is registered, others kept, no duplicate added |
| AppBootstrap.RemoveListener | app.js:155 | exactly the given listener is unregistered |
| AppBootstrap.AnimateEffects | app.js:177-183 | when `ready` is `false` no update, rotation or render; otherwise update, rotation, render in that order |
| AppBootstrap.AnimateFrameCounts | app.js:177-183 | over any frames, update, rotation and render each happen once per frame whose `ready` is not `false` |
| AppBootstrap.Session.Start | app.js:107-127 | script report and global check always computed; scene, renderer and source are made only when init starts and both probes pass |
| AppBootstrap.Session.SourceInitialized | app.js:128-144 | exactly the first (context-less) handler is registered and the context is made |
| AppBootstrap.Session.ContextInitialized | app.js:146-184 | projection copied, first handler removed and second added so exactly one listener remains, marker bound, first frame run |
| AppBootstrap.Session.Fire | app.js:94-101 | a handler (by resize or its 300 ms timer) syncs element and renderer, and the controller only if it captured the context |
| AppBootstrap.Session.WindowResize | app.js:102 | the one registered listener runs |
| AppBootstrap.Session.Frame | app.js:177-183 | appends `AnimateEffects(ready)`; the cone turns only when `ready` is not `false` |
| MainBootstrap.FrameEffects | src/main.ts:58-63 | update iff `ready` is true, before rotation and render, which always happen; never a projection copy |
| MainBootstrap.FrameCounts | src/main.ts:58-63 | over any frames: one rotation and one render per frame, one update per frame with `ready` true, no projection copy |
| MainBootstrap.GuardsDifferOnUndefined | src/main.ts:60 | with `ready` undefined app.js updates and main.ts does not; with `ready` false only main.ts renders; for true/false both agree on updating |
| MainBootstrap.Page.Load | src/main.ts:11-58 | renderer sized, source made, context and marker made, first frame run |
| MainBootstrap.Page.OnResize | src/main.ts:21-30 | element, renderer, then controller canvas (when `arController` exists) get the measured size; afterwards all sizes agree |
| MainBootstrap.Page.WindowResize | src/main.ts:31 | `onResize` is registered once, so a window resize applies `SyncSizes` with the live context exactly once |
| MainBootstrap.Page.ContextInitialized | src/main.ts:38-40 | the only place the projection matrix is copied |
| MainBootstrap.Page.Frame | src/main.ts:58-63 | appends `FrameEffects(ready)` and always turns the cone |

## Left out

- THREE / THREEx internals are not modelled: marker detection, pose, the projection matrix's value, rendering and `onResizeElement`'s sizing rule. Resize handlers take the measured element size as a parameter. Detection writing the node's visibility is `Marker.Detect`. The media pipeline writing `ready` is `SetReady`.
- The state of a freshly made source is a parameter. The model does not claim what the library sets `ready` to.
- The `dispose` calls in the system's and the component's `remove` (aframe-ar.js:99-102, 176-178) are calls into the libraries and are not modelled.
- `fetch`: each probe's outcome (ok flag and status, or an exception) is an input. The DOM query for script tags is replaced by the list of `src` strings.
- Scheduling by `requestAnimationFrame` and `setTimeout` is not modelled. Frames are `Frame` / `Tick` calls. The 300 ms delayed resize is one more `Fire` call with the handler it was set up with.
- The order between the source and context init callbacks is not modelled. In `app.js` it is fixed by the awaits. In the A-Frame system and `src/main.ts` the callbacks are methods that may be called in any order: the context may exist before its `arController` does.
- Rotation increments (0.02 / 0.01) are floating point. The model counts rotation steps instead.
- Console message text is replaced by diagnostic tags (probe reports, missing-script tags, warnings, an init-error flag).
- The A-Frame and THREEx presence check at the top of `aframe-ar.js` (lines 6-19) is not modelled. So are the `AFRAME.registerSystem` and `AFRAME.registerComponent` calls themselves (lines 25 and 110), whose bodies are modelled, and the `<a-marker>` primitive (lines 188-199). They only decide whether the adapter is installed and how markup attributes reach the component.
- `app.js` as written does not parse: the function expression opened at app.js:11 is never closed, as there is no `})();` after line 192. A browser would report a syntax error and run none of the file. The model of `app.js` (modules `Preflight` and `AppBootstrap`) describes the script with that closing `})();` added.
- `init().catch` (app.js:190-192) is not modelled: exceptions thrown by the libraries are outside the model.
- MarkerOptions.ParseBarcode: `parseInt` is modelled only for falsy values, numbers and all-digit text. For numbers of magnitude 10^21 or more the contract promises only a single signed digit; the body takes the leading digit of the exact integer, which can differ from JavaScript's where the number's shortest decimal form rounds up to the next power of ten. Any other text gives `Unparsed`, because its result (NaN or a prefix value) depends on parsing rules outside the model.
- MarkerOptions.MapOptions: A-Frame numbers are floating point. The model's barcode number is an integer and `size` is a real.
- The debug GUI's content is not modelled. Only whether it is opened is.
