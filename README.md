# Rotating-globe portfolio: navigation model

This project models the navigation logic of a personal-portfolio web page. The page shows a
rotating globe that steps through a fixed catalog of four life events. Each event has a
place, a latitude and longitude, an age label and a description.

The vanilla front end (`script.js`) keeps its state in module-level variables:
- a cursor into the catalog;
- a zoomed-in flag and a cooldown flag;
- the zoom distances derived from the window size;
- the gesture bookkeeping for touch swipes and mouse drags.

An accepted interaction either starts a zoom-in (when zoomed out) or moves the cursor and
starts a zoom-out that rotates the globe to the new event (when zoomed in). The animations
are GSAP tweens. Their completion callbacks set the zoom flag and slide the info panel in or
out. A 1500 ms timer clears the cooldown flag. Until the globe model has loaded, an accepted
interaction throws a TypeError: the zoom functions read the position of a mesh that does not
exist yet. The timer is then never set, and the page stops accepting input for good.

The React front end (`App` in `src/components/Projects.js`) has the same cursor and zoom
logic behind two arrow buttons. It has no cooldown, and it hides the panel when the zoom-out
starts. `projects.js` adds a switcher for floating windows and a project gallery that is
rebuilt on demand.

How the model is built:
- Each tween is a pending record: the property it animates, its end value and its callback.
  Starting a tween appends a record. A separate event completes any one running tween
  (`CompleteTween(k)`), so the model fixes no completion order. The cooldown timer is an
  armed flag with its own "timer fires" event. Real time is not modelled.
- Module `Navigation` states each step of `script.js` as a function on a snapshot of the
  state (`GlobeState`). Class `Globe.Globe` holds the same variables as fields. Its methods
  update them in place and promise that the new snapshot is the `Navigation` step applied to
  the old one. `Navigation.Inv` is the invariant all of them keep. An exception thrown by a
  handler keeps the changes made before it and skips the rest of every caller
  (`Navigation.InteractionThrows`). `Navigation.FromCatalog`
  (the panel and every pending zoom-out hold only catalog events) is proved separately for
  every reachable state.
- `ReactApp` and `ReactComponent` do the same for the React component.
- `Windows` models `projects.js` as a class over an array of inline `display` values.
- Angles stay in degrees. Distances and pixel coordinates are `real`.

## Model

| member | source | states |
|---|---|---|
| `Catalog.JsRem` | script.js:205 | JavaScript `%`: the remainder takes the dividend's sign; it equals Euclidean `%` for a non-negative dividend |
| `Catalog.Wrap` | script.js:205 | the cursor update `(i + d + n) % n` lies in `[0, n)` whenever `i + d + n >= 0` |
| `Catalog.WrapForward` | script.js:204-205 | a step forward goes to the next event, and from the last event to the first |
| `Catalog.WrapBackward` | script.js:204-205 | a step backward goes to the previous event, and from the first event to the last |
| `Catalog.WrapRoundTrip` | script.js:204-205 | `+1` then `-1`, or `-1` then `+1`, restores any valid cursor, for every catalog length |
| `Catalog.WrapIsEuclidean` | script.js:205 | for a valid cursor and a step of ±1, the JavaScript expression equals `(i + d) mod n` |
| `Catalog.Walk` | script.js:204-205 | any sequence of ±1 steps keeps the cursor inside the catalog |
| `Catalog.WalkIsNetDisplacement` | script.js:204-205 | a walk of ±1 steps ends at the start plus the net displacement, mod the catalog length |
| `Viewport.CalculateZoomLevels` | script.js:53-63 | zoomed-in distance = 0.6 × default; zoomed-in < default; default ≥ 2; default = max(2, 3 − aspect), × 1.2 when width ≤ 768 |
| `Viewport.BaseZoom` | script.js:54-55 | the unscaled distance lies in [2, 3] |
| `Viewport.CompactLayoutScalesBoth` | script.js:59-62 | at equal aspect, a compact window's two distances are exactly 1.2 × a wide window's |
| `Viewport.WiderAspectNotFurther` | script.js:54-55 | within one layout, a wider window never puts the camera further out |
| `Viewport.PanelAxis` | script.js:267-283 | the panel slides vertically exactly in the compact layout (width ≤ 768) |
| `Viewport.ZoomInOffset` | script.js:181-185 | a portrait window (aspect < 1) pans the globe down; any other window pans it left; never both |
| `Viewport.PortraitIffTaller` | script.js:182-183 | aspect < 1 exactly when the window is taller than wide |
| `Viewport.MobileTestsDisagree` | script.js:49-51 | an 800×1000 window gets the wide panel axis but the portrait zoom-in offset |
| `Viewport.CompactLayoutBoundary` | script.js:49-51 | `isMobile()` holds exactly up to 768 px: 768 is compact, 769 is not, and every narrower window is compact too |
| `Navigation.StepOf` | script.js:170-174 | 'right' becomes step +1 and 'left' becomes step −1 |
| `Navigation.CatalogSize` | script.js:205 | `lifeEvents.length` is 4, the count the cursor arithmetic uses |
| `Navigation.Init` | script.js:65-117 | start-up: cursor 0, zoomed out, no cooldown, camera at the default distance; touch listeners exactly when width ≤ 768 |
| `Navigation.PositionEarthToEvent` | script.js:149-160 | without a mesh nothing changes; otherwise the rotation becomes the event's and the vertical position 0; nothing else changes |
| `Navigation.OrientationFor` | script.js:151-152 | the rotation is (lat, −lon) in degrees, from which the coordinates are recovered |
| `Navigation.UpdateInfoPanel` | script.js:232-239 | the panel text shows the event; nothing else changes |
| `Navigation.ShowInfoPanel` | script.js:267-274 | the panel slides in along the axis of the current layout; nothing else changes |
| `Navigation.HideInfoPanel` | script.js:276-283 | the panel slides out along the axis of the current layout; nothing else changes |
| `Navigation.OnModelLoaded` | script.js:84-97 | the loaded mesh is turned to the current event and the panel text shows it; nothing else changes |
| `Navigation.ZoomInAndPan` | script.js:181-202 | appends the camera tween and the pan tween whose completion zooms in; without a mesh only the camera tween (the call throws there); nothing else changes |
| `Navigation.ZoomOutAndRotate` | script.js:204-230 | the cursor moves at once to `(i + d) mod 4`; the three zoom-out tweens are appended, the new event in the rotation's callback; without a mesh only the camera tween (the call throws there); nothing else changes |
| `Navigation.HandleInteraction` | script.js:163-178 | keeps `Inv`; during the cooldown nothing changes; otherwise the cooldown flag is set, and the timer is set exactly when the mesh has loaded; the zoom flag is never changed directly |
| `Navigation.HandleInteractionWhenReady` | script.js:163-178 | the ready-guarded handler: before the mesh loads nothing changes, afterwards it is `HandleInteraction`; a set cooldown flag always has its timer pending |
| `Navigation.ApplyTarget` | script.js:187-223 | a finishing tween changes only the camera distance or the mesh, and never creates a mesh |
| `Navigation.RunCallback` | script.js:197-228 | the zoom-in callback sets the flag and slides the panel in; the zoom-out callback clears it, slides the panel out and shows the carried event; nothing else changes |
| `Navigation.CompleteTween` | script.js:197-200 | keeps `Inv`; the completed tween leaves the running list; cursor and cooldown unchanged |
| `Navigation.OnCooldownElapsed` | script.js:177 | the timer clears the cooldown and changes nothing else |
| `Navigation.OnWindowResize` | script.js:241-251 | new window size and zoom levels; camera snapped to the default distance; a loaded globe re-aimed at the current event and centred vertically; every other field unchanged |
| `Navigation.Abs` | script.js:325 | `Math.abs`: non-negative and ±x |
| `Navigation.TouchSwipe` | script.js:299-303 | a swipe counts only when it travels more than 50 px to the right, and then always as 'right' |
| `Navigation.MouseDrag` | script.js:322-331 | a drag counts as 'right' iff it travels more than 50 px right, and as 'left' iff more than 50 px left |
| `Navigation.OnTouchStart` | script.js:287-289 | records where the touch started, even during the cooldown; nothing else changes |
| `Navigation.OnMouseDown` | script.js:310-313 | records the press and where it started, even during the cooldown; nothing else changes |
| `Navigation.OnTouchEnd` | script.js:296-305 | keeps `Inv` |
| `Navigation.OnMouseUp` | script.js:319-334 | keeps `Inv` |
| `Navigation.Dispatch` | script.js:108-116 | events for the listener set that was not registered change nothing |
| `Navigation.Apply` | script.js:163-334 | every event that can occur keeps `Inv`, which includes the stuck state left by a pre-load interaction |
| `Navigation.Run` | script.js:163-334 | every state reachable by any sequence of events keeps `Inv`: a pending timer implies the cooldown flag; without a mesh, or with the flag set and no timer, the globe is zoomed out and only camera tweens run |
| `NavigationFacts.ZoomOutRoundTrip` | script.js:204-205 | `zoomOutAndRotate(1)` then `(-1)`, or the reverse, restores the cursor |
| `NavigationFacts.InteractionDroppedDuringCooldown` | script.js:163-164 | during the cooldown an interaction changes nothing |
| `NavigationFacts.InteractionWhileZoomedOut` | script.js:163-192 | from zoomed out, either direction starts the same zoom-in; cursor and zoom flag unchanged; with the mesh loaded the camera and pan tweens start and the timer is set; before that only the camera tween starts and no timer is set |
| `NavigationFacts.InteractionWhileZoomedIn` | script.js:169-175 | from zoomed in, 'right' = next event and 'left' = previous, wrapping; the zoom-out tweens carry the new event |
| `NavigationFacts.CooldownClearedOnlyByTimer` | script.js:165-177 | once armed, the cooldown survives every event except its timer |
| `NavigationFacts.ZoomInCompletion` | script.js:197-200 | zoom-in completion sets the zoom flag and slides the panel in along the current axis |
| `NavigationFacts.ZoomOutCompletion` | script.js:224-228 | zoom-out completion clears the zoom flag, slides the panel out, fills it with the carried event and turns the globe to it |
| `NavigationFacts.TouchEndBehaviour` | script.js:296-305 | touch end interacts ('right') iff there is no cooldown, a start was recorded and the swipe went > 50 px right; otherwise nothing changes |
| `NavigationFacts.MouseUpBehaviour` | script.js:319-334 | mouse up during cooldown changes nothing and leaves the button down; otherwise a > 50 px drag interacts in its direction, and the drag ends unless that interaction threw for want of a mesh |
| `NavigationFacts.MouseDragMirror` | script.js:325-330 | a drag from a to b reads 'right' iff the drag from b to a reads 'left' |
| `NavigationFacts.DragScenarios` | script.js:310-334 | a 30 px drag does not interact; a −60 px drag interacts once, as 'left', and the button stays down if the mesh has not loaded |
| `NavigationFacts.ZoomInHalf` | script.js:163-200 | from idle and zoomed out with the mesh loaded: 'right', both completions and the timer leave the globe zoomed in on the same event, panel slid in with its text unchanged, camera at the zoomed-in distance |
| `NavigationFacts.ZoomOutHalf` | script.js:163-230 | from idle and zoomed in: 'right', the three completions and the timer end idle and zoomed out on the next event (wrapping), panel slid out and showing it, camera at the default distance, globe centred and turned to it |
| `NavigationFacts.TwoZoomInsInFlight` | script.js:163-201 | with the mesh loaded, if the timer fires before the zoom-in completes, a second zoom-in starts while the first still runs |
| `NavigationFacts.RightThenLeftRestoresCursor` | script.js:163-205 | a 'left' during the cooldown is dropped; after the timer, 'left' restores the cursor |
| `NavigationFacts.ResizeWhileZoomedIn` | script.js:246-248 | resizing while zoomed in keeps the flag and snaps the camera to the default, farther distance |
| `NavigationFacts.OrientationUnwrapped` | script.js:151-152 | rotation = (lat, −lon) in degrees; 192.3428° is not wrapped |
| `NavigationFacts.ReachableCursorInRange` | script.js:204-205 | after any sequence of events from start-up, the cursor is in `[0, 4)` |
| `NavigationFacts.InteractionKeepsCatalog` | script.js:204-227 | an accepted interaction only starts zoom-outs that carry the catalog event under the new cursor |
| `NavigationFacts.ApplyKeepsCatalog` | script.js:163-334 | no event puts a non-catalog event on the panel or in a pending zoom-out |
| `NavigationFacts.DispatchKeepsCatalog` | script.js:296-334 | no touch or mouse event puts a non-catalog event in a pending zoom-out |
| `NavigationFacts.CompletionKeepsCatalog` | script.js:222-229 | a completing tween fills the panel only with the catalog event its zoom-out carries |
| `NavigationFacts.RunKeepsCatalog` | script.js:163-334 | after any sequence of events, the panel shows only catalog events and every pending zoom-out carries one |
| `NavigationFacts.PreloadInteractionSticks` | script.js:163-192 | an interaction accepted before the mesh loads leaves the cooldown flag set with no timer pending |
| `NavigationFacts.StuckStep` | script.js:163-334 | in that stuck state no event clears the flag, moves the cursor or zooms in |
| `NavigationFacts.StuckForever` | script.js:163-334 | once stuck, every sequence of events leaves the page stuck, zoomed out and on the same event |
| `NavigationFacts.PreloadDragFreezes` | script.js:163-192 | on a wide window, a 100 px drag before the model loads starts one camera tween, sets no timer, leaves the button down, and no later events ever zoom in |
| `NavigationFacts.ReadyGuardIgnoresPreloadInput` | script.js:163-178 | with a ready guard, input before the model loads leaves the start-up state unchanged |
| `NavigationFacts.PanOutrunsCameraTween` | script.js:163-200 | after the pan and the timer, the globe is zoomed in and accepts input while the zoom-in's camera tween still runs |
| `NavigationFacts.CameraTweenOutlivesZoomOut` | script.js:187-216 | when the zoom-out's tweens finish before that camera tween, the page ends zoomed out with the camera at the zoomed-in distance |
| `Globe.Globe.constructor` | script.js:65-117 | the fields start as `Navigation.Init` |
| `Globe.Globe.CalculateZoomLevels` | script.js:53-63 | writes exactly the two zoom fields, with the values of `Viewport.CalculateZoomLevels` |
| `Globe.Globe.PositionEarthToEvent` | script.js:149-160 | new state = `Navigation.PositionEarthToEvent` |
| `Globe.Globe.UpdateInfoPanel` | script.js:232-239 | the panel's content becomes the event; nothing else changes |
| `Globe.Globe.ShowInfoPanel` | script.js:267-274 | the panel slides in along the current layout's axis |
| `Globe.Globe.HideInfoPanel` | script.js:276-283 | the panel slides out along the current layout's axis |
| `Globe.Globe.OnModelLoaded` | script.js:84-97 | keeps `Valid`; new state = `Navigation.OnModelLoaded` |
| `Globe.Globe.ZoomInAndPan` | script.js:181-202 | new state = `Navigation.ZoomInAndPan`; reports a throw exactly when the mesh is missing, after the camera tween and before the pan tween |
| `Globe.Globe.ZoomOutAndRotate` | script.js:204-230 | new state = `Navigation.ZoomOutAndRotate`; reports a throw exactly when the mesh is missing |
| `Globe.Globe.HandleInteraction` | script.js:163-178 | keeps `Valid`; new state = `Navigation.HandleInteraction`; reports a throw exactly when an accepted interaction finds no mesh, and then sets no timer |
| `Globe.Globe.ApplyTarget` | script.js:187-223 | the finished tween's property takes its end value |
| `Globe.Globe.RunCallback` | script.js:197-228 | runs the zoom-in or zoom-out completion callback |
| `Globe.Globe.CompleteTween` | script.js:187-229 | keeps `Valid`; new state = `Navigation.CompleteTween` |
| `Globe.Globe.OnCooldownElapsed` | script.js:177 | keeps `Valid`; the cooldown ends |
| `Globe.Globe.OnWindowResize` | script.js:241-251 | keeps `Valid`; new state = `Navigation.OnWindowResize` |
| `Globe.Globe.OnTouchStart` | script.js:287-289 | records where the touch started |
| `Globe.Globe.OnTouchEnd` | script.js:296-305 | keeps `Valid`; new state = `Navigation.OnTouchEnd` |
| `Globe.Globe.OnMouseDown` | script.js:310-313 | records the press and where it started |
| `Globe.Globe.OnMouseUp` | script.js:319-334 | keeps `Valid`; new state = `Navigation.OnMouseUp`: a thrown interaction skips ending the drag |
| `Globe.Globe.Dispatch` | script.js:108-116 | keeps `Valid`; only the listeners registered at start-up react |
| `ReactApp.StepOf` | src/components/Projects.js:55-69 | the next arrow becomes step +1 and the previous arrow step −1 |
| `ReactApp.Mount` | src/components/Projects.js:42-53 | after mounting: cursor 0, zoomed out, `isMobile` iff width ≤ 768 |
| `ReactApp.ZoomInAndPan` | src/components/Projects.js:71-81 | appends the scale-up tween to 1.5 whose completion zooms in; nothing else changes |
| `ReactApp.HandleResize` | src/components/Projects.js:48-53 | `isMobile` iff width ≤ 768 after every resize; nothing else changes |
| `ReactApp.ZoomOutAndRotate` | src/components/Projects.js:83-96 | cursor becomes `(i + d) mod 4` and stays in `[0, 4)`; the panel slides out at the start; the zoom flag is unchanged until completion |
| `ReactApp.HandleNextEvent` | src/components/Projects.js:55-61 | keeps the cursor in `[0, 4)` |
| `ReactApp.HandlePrevEvent` | src/components/Projects.js:63-69 | keeps the cursor in `[0, 4)` |
| `ReactApp.Click` | src/components/Projects.js:142-149 | either arrow keeps the cursor in `[0, 4)` |
| `ReactApp.CompleteTween` | src/components/Projects.js:76-94 | the container reaches the tween's scale; the tween leaves the running list; the cursor is unchanged |
| `ReactApp.Render` | src/components/Projects.js:131-140 | the scene and the panel both get `lifeEvents[currentEventIndex]`, a catalog event |
| `ReactApp.NextWhileZoomedIn` | src/components/Projects.js:55-85 | zoomed in, 'next' moves to the next event (wrapping) and hides the panel before any animation ends |
| `ReactApp.ArrowWhileZoomedOut` | src/components/Projects.js:55-81 | zoomed out, either arrow starts the same zoom-in; the cursor is unchanged |
| `ReactApp.PrevWhileZoomedIn` | src/components/Projects.js:63-84 | zoomed in, 'previous' moves to the previous event; from 0 it goes to 3 |
| `ReactApp.ZoomInCompletion` | src/components/Projects.js:76-79 | zoom-in completion sets the zoom flag and slides the panel in |
| `ReactApp.ZoomOutCompletion` | src/components/Projects.js:91-94 | zoom-out completion clears the zoom flag and shows the swipe hint; the panel stays where it is |
| `ReactApp.Steps` | src/components/Projects.js:55-69 | a click sequence becomes a sequence of ±1 steps |
| `ReactApp.Clicks` | src/components/Projects.js:142-149 | any click sequence keeps the cursor in `[0, 4)` |
| `ReactApp.ClicksWhileZoomedIn` | src/components/Projects.js:55-84 | no in-flight guard: while zoomed in, every click moves the cursor and starts one zoom-out |
| `ReactApp.TwoQuickNextClicks` | src/components/Projects.js:55-84 | two quick 'next' clicks while zoomed in move the cursor by two |
| `ReactApp.NextThenPrevRestores` | src/components/Projects.js:55-84 | 'next' then 'previous' while zoomed in restores the cursor |
| `ReactComponent.App.constructor` | src/components/Projects.js:42-53 | the fields start as `ReactApp.Mount` |
| `ReactComponent.App.HandleResize` | src/components/Projects.js:49 | new state = `ReactApp.HandleResize` |
| `ReactComponent.App.ShowInfoPanel` | src/components/Projects.js:98-104 | the panel's target becomes "slid in"; nothing else changes |
| `ReactComponent.App.HideInfoPanel` | src/components/Projects.js:106-112 | the panel's target becomes "slid out"; nothing else changes |
| `ReactComponent.App.ShowSwipeText` | src/components/Projects.js:114-116 | the swipe hint fades in; nothing else changes |
| `ReactComponent.App.ZoomInAndPan` | src/components/Projects.js:71-81 | appends the scale-up tween |
| `ReactComponent.App.ZoomOutAndRotate` | src/components/Projects.js:83-96 | new state = `ReactApp.ZoomOutAndRotate` |
| `ReactComponent.App.HandleNextEvent` | src/components/Projects.js:55-61 | new state = `ReactApp.HandleNextEvent` |
| `ReactComponent.App.HandlePrevEvent` | src/components/Projects.js:63-69 | new state = `ReactApp.HandlePrevEvent` |
| `ReactComponent.App.CompleteTween` | src/components/Projects.js:76-94 | new state = `ReactApp.CompleteTween` |
| `Windows.Cards` | projects.js:36-52 | exactly one card per project, in the list's order |
| `Windows.FirstIndexOf` | projects.js:62 | the lookup finds the first window with the id, or nothing iff no window has it |
| `Windows.OpenedDisplays` | projects.js:56-65 | after opening, every window has an explicit display |
| `Windows.AtMostOneShown` | projects.js:56-65 | after opening, at most one floating window is shown |
| `Windows.OpenedWindowIsOnlyOneShown` | projects.js:62-64 | opening an existing id shows that window and hides every other |
| `Windows.UnknownIdHidesAll` | projects.js:56-65 | opening an unknown id leaves every floating window hidden |
| `Windows.ComputedDisplay` | projects.js:99 | an unset inline display falls back to the stylesheet's value; a set one wins |
| `Windows.Page.constructor` | projects.js:57 | the floating windows are given, none with an inline display, and the grid is empty |
| `Windows.Page.GenerateProjectCards` | projects.js:29-53 | no grid: nothing changes; otherwise the grid is exactly the card list, so a second call gives the same grid |
| `Windows.Page.OpenWindow` | projects.js:55-71 | the displays are `OpenedDisplays`; cards are rebuilt only when the id is 'projectsWindow', that window exists and the grid exists |
| `Windows.Page.CloseButtonClicked` | projects.js:91-95 | a close button hides its own window and leaves every other unchanged |
| `Windows.Page.OnContentLoaded` | projects.js:97-101 | on page load, cards are built iff the projects window exists, is not computed hidden and the grid exists |

## Left out

- Scene construction, lighting, the camera projection, the render loop and the animation speed (script.js:65-147, 253-265): these are rendering calls into THREE.js.
- The starfield (script.js:135-147): it is random and purely visual.
- `degToRad` and floating point: angles stay in degrees and all arithmetic is exact over `real`. `0.6` and `1.2` are exact, not binary doubles.
- GSAP durations and easing: each tween is a start and a later completion. The model does not say how close two completions are in time; any running tween may complete next. When two running tweens animate the same property, the one that completes last sets the final value.
- The setTimeout delay of 1500 ms: only the "timer fires" event is modelled.
- Asset loading: the glTF load error path and its log (script.js:98-101) are left out, as is the React `EarthScene` loader. The success callback is the event `Loaded`.
- Navigation.HandleInteraction: the TypeError thrown before the globe model has loaded (script.js:192, 214) is modelled by its effect on the state only. The handler stops there, and what it changed so far stays. The browser's error report is not modelled.
- Generating the cards without a grid element (projects.js:30-33): the `console.error` message is not modelled; the model records only that nothing changes.
- GSAP overwriting: no running tween is cancelled by a later tween on the same property. This is GSAP's default. `NavigationFacts.CameraTweenOutlivesZoomOut` shows one consequence.
- `onTouchMove` and `onMouseMove` (script.js:291-294, 315-317): they only cancel default scrolling or return, and change no state.
- The mobile-menu toggle (script.js:336-343), `Navigation.js`, `LoadingScreen.js`, the `loading` and `showProjects` state of `App`, and its projects overlay: these are UI toggles with no navigation logic.
- `LifeEvents.js`, `EarthScene.js`: presentation of the current event; the event itself is modelled by `ReactApp.Render`.
- The HTML templates of the panel and the cards (script.js:232-239, projects.js:42-49): content is modelled as a record. Each card's link target is the project's `link`. No entry has one, so the page writes `undefined` there.
- The link click handlers (projects.js:75-88): they only call `openWindow` with fixed ids.
- Windows.Page.OpenWindow: `getElementById` may also find an element that is not a floating window; the model looks ids up among the floating windows only.
- Windows.Page.CloseButtonClicked: a close button outside every floating window (where `closest` finds nothing and the handler throws) is not modelled.
- React rendering: handlers read the state of the last committed render. State updates are treated as applied before the next click.
- React panel and swipe-hint tweens (0.5 s each): only where each is heading is recorded, not their completion.
- Window height 0: the code divides by it unguarded (script.js:54). Every operation that reads the aspect ratio requires a positive height.

Where the code and its design description differ, the model follows the code:
- No "at most one transition in flight" guard: the cooldown timer, not the completion callback, clears `isPanning`. `NavigationFacts.TwoZoomInsInFlight` shows two zoom-ins running at once.
- Resize snaps the camera to the default distance at any time, even zoomed in or mid-tween (`NavigationFacts.ResizeWhileZoomedIn`).
- No fallback aspect for height 0.
- The zoom-out completion hides the panel and replaces its text in the same callback.

## Findings

| source | as written | input that shows it | evidently intended | confidence | as-written member | corrected member |
|---|---|---|---|---|---|---|
| script.js:163-192 | `handleInteraction` is accepted before the globe model has loaded. `zoomInAndPan` then throws on `earthMesh.position` after setting `isPanning` and before the 1500 ms timer. | a mouse press at x = 0 and release at x = 100 on a wide window before the model loads | ignore input until the mesh exists, so every set cooldown flag is cleared by its timer | high; not executed | `NavigationFacts.PreloadDragFreezes` | `Navigation.HandleInteractionWhenReady` |

The rest of the model follows the code as written. `Navigation.HandleInteractionWhenReady` and `NavigationFacts.ReadyGuardIgnoresPreloadInput` state the guarded variant.
