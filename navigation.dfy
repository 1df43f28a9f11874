/**
 * The navigation state machine of the vanilla front end (script.js), as
 * functions on a snapshot of its module-level state. Each GSAP tween is a
 * pending record that is started by a handler and completed later by a
 * separate event; the 1500 ms cooldown timer is an armed flag cleared by its
 * own event. The class in module Globe runs these steps in place.
 */
module Navigation {
  import opened Wrappers
  import opened Catalog
  import opened Viewport

  /** The catalog of the vanilla front end, in the order the cursor visits it. */
  const LifeEvents: seq<LifeEvent> := [
    LifeEvent("Dhaka, Bangladesh", 15.0906, 192.3428, "0",
      "Born in Dhaka, the vibrant capital of Bangladesh. The city's bustling streets, colorful rickshaws, and the aroma of street food would have been my first sensory experiences. Though I was too young to remember, this diverse and lively city set the stage for my multicultural journey."),
    LifeEvent("Dubai, United Arab Emirates", 19.4752, 140.0686, "3 months old",
      "Moved to Dubai at just 3 months old. My parents, full of hope and ambition, started our new life in a modest 1-bedroom apartment. Growing up in this futuristic city, I witnessed its rapid transformation from desert to a global metropolis. The blend of traditional Arab culture with modern architecture and international influences shaped my early worldview."),
    LifeEvent("New York, United States", 34.9451, 12.8719, "17",
      "At 17, I embarked on a life-changing trip to New York City. The energy of the Big Apple was intoxicating - from the towering skyscrapers to the diverse neighborhoods and the melting pot of cultures. This experience opened my eyes to new possibilities and ignited a desire to pursue education in North America. The stark contrast to Dubai made me appreciate both cultures and fueled my curiosity to learn more about Western education and lifestyle."),
    LifeEvent("Manitoba, Canada", 39.5288, -8.9005, "20",
      "At 20, I made the bold move to Manitoba, Canada, to pursue a Computer Science degree at the University of Manitoba. The adjustment from the desert climate of Dubai to the harsh Canadian winters was challenging but exhilarating. Over the past two years, I've immersed myself in a new culture, joined various student groups, and built a diverse network of friends from around the world. The Canadian emphasis on multiculturalism has allowed me to embrace my background while integrating into a new society. My journey in tech has been both challenging and rewarding, opening doors to innovative projects and potential career paths I never imagined.")
  ]

  /**
   * The number of entries in the catalog. The invariant and the cursor
   * arithmetic speak of it rather than of the catalog's texts.
   */
  const EventCount: nat := 4

  /** `lifeEvents.length`, which the cursor arithmetic of script.js uses, is `EventCount`. */
  lemma CatalogSize()
    ensures |LifeEvents| == EventCount
  {
  }

  /** Horizontal distance, in pixels, that a swipe or drag must exceed to count. */
  const SwipeThreshold: real := 50.0

  /** The direction argument of `handleInteraction`: its callers pass only 'left' or 'right'. */
  datatype Direction = Left | Right

  /** The step `handleInteraction` hands to `zoomOutAndRotate`. */
  function StepOf(d: Direction): (step: int)
    ensures step == 1 || step == -1
    ensures step == 1 <==> d == Right
  {
    if d == Right then 1 else -1
  }

  /** The globe's rotation in degrees: `pitch` about the x axis, `yaw` about the y axis. */
  datatype Orientation = Orientation(pitch: real, yaw: real)

  /**
   * The rotation `positionEarthToEvent` and `zoomOutAndRotate` give the globe
   * for an event: latitude about x, negated longitude about y. Longitudes
   * outside [-180, 180] are used as they are.
   */
  function OrientationFor(e: LifeEvent): (o: Orientation)
    ensures o.pitch == e.lat && -o.yaw == e.lon
  {
    Orientation(e.lat, -e.lon)
  }

  /** The loaded globe mesh: its rotation and its position in the plane of the screen. */
  datatype Earth = Earth(rotation: Orientation, x: real, y: real)

  /** The info panel's CSS transform as last set: slid in (`shown`) or out along `axis`. */
  datatype Slide = Slide(axis: Axis, shown: bool)

  /** The property a tween animates and the value it ends at. */
  datatype Target =
    | CameraZ(z: real)
    | EarthPosition(x: real, y: real)
    | EarthRotation(rotation: Orientation)

  /** What a tween's `onComplete` does. */
  datatype Callback = NoCallback | ZoomInComplete | ZoomOutComplete(next: LifeEvent)

  /** A GSAP tween that has started and not yet completed. */
  datatype Tween = Tween(target: Target, onComplete: Callback)

  /** A tween of the camera distance alone, with no callback: the only kind started while the mesh is missing. */
  predicate CameraOnly(t: Tween)
  {
    t.target.CameraZ? && t.onComplete.NoCallback?
  }

  /** The listeners `init` registers: touch listeners in the compact layout, mouse listeners otherwise. */
  datatype InputScheme = TouchInput | MouseInput

  /** The module-level state of script.js that the navigation logic reads and writes. */
  datatype GlobeState = GlobeState(
    width: nat,                       // window.innerWidth
    height: nat,                      // window.innerHeight
    scheme: InputScheme,
    currentEventIndex: int,
    isZoomedIn: bool,
    isPanning: bool,
    cooldownArmed: bool,              // the setTimeout that clears isPanning is pending
    defaultZoom: real,
    zoomedInZoom: real,
    cameraZ: real,                    // camera.position.z
    earth: Option<Earth>,             // None until the glTF model has loaded
    panelSlide: Option<Slide>,        // None while the stylesheet's transform applies
    panelContent: Option<LifeEvent>,  // the event rendered into the text area, once one is
    tweens: seq<Tween>,
    touchStartX: Option<real>,        // None while still undefined
    isMouseDown: bool,
    mouseStartX: Option<real>)

  /**
   * The invariant every reachable state keeps: the cursor is inside the
   * catalog, the zoom distances match the window, a pending timer always
   * finds the cooldown flag set, the panel is slid in exactly while zoomed
   * in, and every pending zoom-out turns the globe to the event it will show.
   * Before the mesh loads, and once the cooldown flag is set with no timer
   * to clear it, the globe is zoomed out and only camera tweens run.
   */
  ghost predicate Inv(s: GlobeState)
  {
    && s.height > 0
    && 0 <= s.currentEventIndex < EventCount
    && (s.cooldownArmed ==> s.isPanning)
    && (s.earth.None? || (s.isPanning && !s.cooldownArmed) ==>
          !s.isZoomedIn && forall k :: 0 <= k < |s.tweens| ==> CameraOnly(s.tweens[k]))
    && CalculateZoomLevels(s.width, s.height) == ZoomLevels(s.defaultZoom, s.zoomedInZoom)
    && (s.isMouseDown ==> s.mouseStartX.Some?)
    && (if s.panelSlide.None? then !s.isZoomedIn else s.panelSlide.value.shown == s.isZoomedIn)
    && (forall k :: 0 <= k < |s.tweens| ==> ZoomOutTweenFits(s.tweens[k]))
  }

  /** A zoom-out's completing tween turns the globe to the event it carries. */
  predicate ZoomOutTweenFits(t: Tween)
  {
    t.onComplete.ZoomOutComplete? ==> t.target == EarthRotation(OrientationFor(t.onComplete.next))
  }

  /** The panel shows, and every pending zoom-out carries, only events of the catalog. */
  ghost predicate FromCatalog(s: GlobeState)
  {
    && (s.panelContent.Some? ==> s.panelContent.value in LifeEvents)
    && (forall k :: 0 <= k < |s.tweens| ==>
          s.tweens[k].onComplete.ZoomOutComplete? ==> s.tweens[k].onComplete.next in LifeEvents)
  }

  /**
   * `init()`: zoom levels from the window, camera at the zoomed-out distance,
   * cursor on the first event, nothing loaded, nothing running, and the input
   * scheme chosen once by the width test.
   */
  function Init(width: nat, height: nat): (s: GlobeState)
    requires height > 0
    ensures Inv(s)
    ensures s.currentEventIndex == 0 && !s.isZoomedIn && !s.isPanning
    ensures s.earth.None? && s.tweens == [] && s.cameraZ == s.defaultZoom
    ensures s.scheme == TouchInput <==> IsMobile(width)
  {
    var z := CalculateZoomLevels(width, height);
    GlobeState(width, height, if IsMobile(width) then TouchInput else MouseInput,
      0, false, false, false, z.defaultZoom, z.zoomedInZoom, z.defaultZoom,
      None, None, None, [], None, false, None)
  }

  /** `positionEarthToEvent`: without a mesh nothing happens; otherwise rotate to the event and centre vertically. */
  function PositionEarthToEvent(s: GlobeState, e: LifeEvent): (r: GlobeState)
    ensures r.earth.Some? <==> s.earth.Some?
    ensures r.earth.Some? ==> r.earth.value == Earth(OrientationFor(e), s.earth.value.x, 0.0)
    ensures r.(earth := s.earth) == s
  {
    if s.earth.None? then s
    else s.(earth := Some(s.earth.value.(rotation := OrientationFor(e), y := 0.0)))
  }

  /** `updateInfoPanel`: the text area now shows `e`; nothing else changes. */
  function UpdateInfoPanel(s: GlobeState, e: LifeEvent): (r: GlobeState)
    ensures r.panelContent == Some(e) && r.(panelContent := s.panelContent) == s
  {
    s.(panelContent := Some(e))
  }

  /** `showInfoPanel`: slide the panel in along the axis of the current layout. */
  function ShowInfoPanel(s: GlobeState): (r: GlobeState)
    ensures r.panelSlide == Some(Slide(PanelAxis(s.width), true)) && r.(panelSlide := s.panelSlide) == s
  {
    s.(panelSlide := Some(Slide(PanelAxis(s.width), true)))
  }

  /** `hideInfoPanel`: slide the panel out along the axis of the current layout. */
  function HideInfoPanel(s: GlobeState): (r: GlobeState)
    ensures r.panelSlide == Some(Slide(PanelAxis(s.width), false)) && r.(panelSlide := s.panelSlide) == s
  {
    s.(panelSlide := Some(Slide(PanelAxis(s.width), false)))
  }

  /**
   * The glTF loader's success callback: the mesh appears unrotated at the
   * origin, is turned to the current event, and the panel text is filled in.
   */
  function OnModelLoaded(s: GlobeState): (r: GlobeState)
    requires Inv(s)
    ensures Inv(r)
    ensures r.earth == Some(Earth(OrientationFor(LifeEvents[s.currentEventIndex]), 0.0, 0.0))
    ensures r.panelContent == Some(LifeEvents[s.currentEventIndex])
    ensures r.(earth := s.earth, panelContent := s.panelContent) == s
  {
    var e := LifeEvents[s.currentEventIndex];
    var loaded := s.(earth := Some(Earth(Orientation(0.0, 0.0), 0.0, 0.0)));
    UpdateInfoPanel(PositionEarthToEvent(loaded, e), e)
  }

  /** The two tweens `zoomInAndPan` starts: the camera towards the zoomed-in distance, the globe towards its pan offset. */
  function ZoomInTweens(s: GlobeState): seq<Tween>
    requires s.height > 0
  {
    var o := ZoomInOffset(s.width, s.height);
    [Tween(CameraZ(s.zoomedInZoom), NoCallback), Tween(EarthPosition(o.x, o.y), ZoomInComplete)]
  }

  /**
   * Whether an accepted `handleInteraction` ends in a TypeError: before the
   * globe model has loaded, `zoomInAndPan` and `zoomOutAndRotate` read
   * `earthMesh.position` while `earthMesh` is undefined. The exception skips
   * the rest of `handleInteraction`, so the cooldown timer is never set, and
   * the rest of the listener that called it.
   */
  predicate InteractionThrows(s: GlobeState)
  {
    !s.isPanning && s.earth.None?
  }

  /**
   * `zoomInAndPan`: start the camera tween and then the pan; without a mesh
   * the call throws after the camera tween. Only the pan's completion sets
   * `isZoomedIn`.
   */
  function ZoomInAndPan(s: GlobeState): (r: GlobeState)
    requires s.height > 0
    ensures r.tweens == s.tweens + (if s.earth.Some? then ZoomInTweens(s) else ZoomInTweens(s)[..1])
    ensures r.(tweens := s.tweens) == s
  {
    var started := ZoomInTweens(s);
    s.(tweens := s.tweens + if s.earth.Some? then started else started[..1])
  }

  /** The three tweens `zoomOutAndRotate` starts; the rotation's completion carries the event it turned to. */
  function ZoomOutTweens(next: LifeEvent, defaultZoom: real): seq<Tween>
  {
    [ Tween(CameraZ(defaultZoom), NoCallback),
      Tween(EarthPosition(0.0, 0.0), NoCallback),
      Tween(EarthRotation(OrientationFor(next)), ZoomOutComplete(next)) ]
  }

  /**
   * `zoomOutAndRotate(direction)`: move the cursor at once, then start the
   * zoom-out towards the new event; without a mesh the call throws after the
   * camera tween.
   */
  function ZoomOutAndRotate(s: GlobeState, direction: int): (r: GlobeState)
    requires 0 <= s.currentEventIndex < EventCount
    requires direction == 1 || direction == -1
    ensures 0 <= r.currentEventIndex < EventCount
    ensures r.currentEventIndex == (s.currentEventIndex + direction) % EventCount
    ensures var started := ZoomOutTweens(LifeEvents[r.currentEventIndex], s.defaultZoom);
      r.tweens == s.tweens + if s.earth.Some? then started else started[..1]
    ensures r.(currentEventIndex := s.currentEventIndex, tweens := s.tweens) == s
  {
    WrapIsEuclidean(s.currentEventIndex, direction, EventCount);
    var i := Wrap(s.currentEventIndex, direction, EventCount);
    var started := ZoomOutTweens(LifeEvents[i], s.defaultZoom);
    s.(currentEventIndex := i, tweens := s.tweens + if s.earth.Some? then started else started[..1])
  }

  /**
   * `handleInteraction(direction)`: dropped while the cooldown runs; otherwise
   * it sets the cooldown flag and either starts the zoom-in (zoomed out,
   * whatever the direction) or moves the cursor and starts the zoom-out
   * (zoomed in), and then sets the timer that clears the flag, unless the
   * zoom threw first.
   */
  function HandleInteraction(s: GlobeState, d: Direction): (r: GlobeState)
    requires Inv(s)
    ensures Inv(r)
    ensures s.isPanning ==> r == s
    ensures !s.isPanning ==> r.isPanning && (r.cooldownArmed <==> s.earth.Some?)
    ensures r.isZoomedIn == s.isZoomedIn
  {
    if s.isPanning then s
    else
      var flagged := s.(isPanning := true);
      var started := if !s.isZoomedIn then ZoomInAndPan(flagged) else ZoomOutAndRotate(flagged, StepOf(d));
      if InteractionThrows(s) then started else started.(cooldownArmed := true)
  }

  /**
   * `handleInteraction` as evidently intended: input is ignored until the
   * globe model has loaded, so no interaction can throw.
   */
  function HandleInteractionWhenReady(s: GlobeState, d: Direction): (r: GlobeState)
    requires Inv(s)
    ensures Inv(r)
    ensures s.earth.None? ==> r == s
    ensures s.earth.Some? ==> r == HandleInteraction(s, d)
    ensures (s.isPanning ==> s.cooldownArmed) ==> (r.isPanning ==> r.cooldownArmed)
  {
    if s.isPanning || s.earth.None? then s else HandleInteraction(s, d)
  }

  /** Apply the end value of a tween's target; a tween on the globe before it has loaded moves nothing. */
  function ApplyTarget(s: GlobeState, t: Target): (r: GlobeState)
    ensures r.(cameraZ := s.cameraZ, earth := s.earth) == s
    ensures r.earth.Some? <==> s.earth.Some?
  {
    match t
    case CameraZ(z) => s.(cameraZ := z)
    case EarthPosition(x, y) =>
      if s.earth.None? then s else s.(earth := Some(s.earth.value.(x := x, y := y)))
    case EarthRotation(o) =>
      if s.earth.None? then s else s.(earth := Some(s.earth.value.(rotation := o)))
  }

  /**
   * Run a tween's `onComplete`: the zoom-in's sets the flag and slides the
   * panel in; the zoom-out's clears the flag, slides the panel out and fills
   * it with the event it carries. Nothing else changes.
   */
  function RunCallback(s: GlobeState, c: Callback): (r: GlobeState)
    ensures c.NoCallback? ==> r == s
    ensures c.ZoomInComplete? ==>
      r.isZoomedIn && r.panelSlide == Some(Slide(PanelAxis(s.width), true)) && r.panelContent == s.panelContent
    ensures c.ZoomOutComplete? ==>
      !r.isZoomedIn && r.panelSlide == Some(Slide(PanelAxis(s.width), false)) && r.panelContent == Some(c.next)
    ensures r.(isZoomedIn := s.isZoomedIn, panelSlide := s.panelSlide, panelContent := s.panelContent) == s
  {
    match c
    case NoCallback => s
    case ZoomInComplete => ShowInfoPanel(s.(isZoomedIn := true))
    case ZoomOutComplete(next) => UpdateInfoPanel(HideInfoPanel(s.(isZoomedIn := false)), next)
  }

  /**
   * The tween at position `k` of the running ones completes: its target takes
   * its end value, it stops running, and its callback runs.
   */
  function CompleteTween(s: GlobeState, k: nat): (r: GlobeState)
    requires Inv(s) && k < |s.tweens|
    ensures Inv(r)
    ensures r.tweens == s.tweens[..k] + s.tweens[k + 1..]
    ensures r.currentEventIndex == s.currentEventIndex && r.isPanning == s.isPanning
  {
    var t := s.tweens[k];
    var rest := s.tweens[..k] + s.tweens[k + 1..];
    assert forall j :: 0 <= j < |rest| ==> rest[j] == s.tweens[if j < k then j else j + 1];
    RunCallback(ApplyTarget(s, t.target).(tweens := rest), t.onComplete)
  }

  /** The cooldown timer fires: interactions are accepted again. */
  function OnCooldownElapsed(s: GlobeState): (r: GlobeState)
    requires Inv(s) && s.cooldownArmed
    ensures Inv(r) && !r.isPanning
    ensures r.(isPanning := true, cooldownArmed := true) == s
  {
    s.(isPanning := false, cooldownArmed := false)
  }

  /**
   * `onWindowResize`: recompute the zoom levels for the new window, snap the
   * camera to the zoomed-out distance (even when zoomed in) and re-aim the
   * globe at the current event; nothing else changes.
   */
  function OnWindowResize(s: GlobeState, width: nat, height: nat): (r: GlobeState)
    requires Inv(s) && height > 0
    ensures Inv(r)
    ensures r.width == width && r.height == height && r.cameraZ == r.defaultZoom
    ensures ZoomLevels(r.defaultZoom, r.zoomedInZoom) == CalculateZoomLevels(width, height)
    ensures r.earth.Some? <==> s.earth.Some?
    ensures s.earth.Some? ==>
      r.earth.value == Earth(OrientationFor(LifeEvents[s.currentEventIndex]), s.earth.value.x, 0.0)
    ensures r.(width := s.width, height := s.height, defaultZoom := s.defaultZoom,
               zoomedInZoom := s.zoomedInZoom, cameraZ := s.cameraZ, earth := s.earth) == s
  {
    var z := CalculateZoomLevels(width, height);
    var resized := s.(width := width, height := height, defaultZoom := z.defaultZoom,
                      zoomedInZoom := z.zoomedInZoom, cameraZ := z.defaultZoom);
    PositionEarthToEvent(resized, LifeEvents[s.currentEventIndex])
  }

  function Abs(x: real): (a: real)
    ensures a >= 0.0 && (a == x || a == -x)
  {
    if x < 0.0 then -x else x
  }

  /**
   * How `onTouchEnd` reads a swipe: only a rightward travel of more than 50
   * pixels counts, and it always means 'right'. An undefined start (no
   * `touchstart` seen) compares as NaN and never counts.
   */
  function TouchSwipe(start: Option<real>, end: real): (d: Option<Direction>)
    ensures d != Some(Left)
    ensures d == Some(Right) <==> start.Some? && end - start.value > SwipeThreshold
  {
    match start
    case None => None
    case Some(x0) => if end - x0 > SwipeThreshold then Some(Right) else None
  }

  /**
   * How `onMouseUp` reads a drag: a travel of more than 50 pixels either way
   * counts, rightward as 'right' and leftward as 'left'.
   */
  function MouseDrag(start: Option<real>, end: real): (d: Option<Direction>)
    ensures d == Some(Right) <==> start.Some? && end - start.value > SwipeThreshold
    ensures d == Some(Left) <==> start.Some? && start.value - end > SwipeThreshold
  {
    match start
    case None => None
    case Some(x0) =>
      var delta := end - x0;
      if Abs(delta) > SwipeThreshold then (if delta > 0.0 then Some(Right) else Some(Left)) else None
  }

  /** `onTouchStart`: remember where the touch began; nothing else changes, even during the cooldown. */
  function OnTouchStart(s: GlobeState, x: real): (r: GlobeState)
    ensures r.touchStartX == Some(x) && r.(touchStartX := s.touchStartX) == s
  {
    s.(touchStartX := Some(x))
  }

  /** `onTouchEnd`: ignored during the cooldown; otherwise a long rightward swipe interacts. */
  function OnTouchEnd(s: GlobeState, x: real): (r: GlobeState)
    requires Inv(s)
    ensures Inv(r)
  {
    if s.isPanning then s
    else match TouchSwipe(s.touchStartX, x)
      case None => s
      case Some(d) => HandleInteraction(s, d)
  }

  /** `onMouseDown`: a drag begins here, even during the cooldown; nothing else changes. */
  function OnMouseDown(s: GlobeState, x: real): (r: GlobeState)
    ensures r.isMouseDown && r.mouseStartX == Some(x)
    ensures r.(isMouseDown := s.isMouseDown, mouseStartX := s.mouseStartX) == s
  {
    s.(isMouseDown := true, mouseStartX := Some(x))
  }

  /**
   * `onMouseUp`: returns at once, leaving the button recorded as down, when no
   * drag is in progress or the cooldown runs; otherwise a long drag interacts
   * and the drag ends, unless the interaction threw.
   */
  function OnMouseUp(s: GlobeState, x: real): (r: GlobeState)
    requires Inv(s)
    ensures Inv(r)
  {
    if !s.isMouseDown || s.isPanning then s
    else match MouseDrag(s.mouseStartX, x)
      case None => s.(isMouseDown := false)
      case Some(d) =>
        var after := HandleInteraction(s, d);
        if InteractionThrows(s) then after else after.(isMouseDown := false)
  }

  /** A raw pointer event; the move events only cancel default scrolling and change no state. */
  datatype InputEvent = TouchStart(x: real) | TouchEnd(x: real) | MouseDown(x: real) | MouseUp(x: real)

  /** Whether the listeners registered by `init` receive this event at all. */
  predicate Listens(scheme: InputScheme, ev: InputEvent)
  {
    if scheme == TouchInput then ev.TouchStart? || ev.TouchEnd? else ev.MouseDown? || ev.MouseUp?
  }

  /** Deliver a pointer event: only the listeners of the scheme chosen at start-up react. */
  function Dispatch(s: GlobeState, ev: InputEvent): (r: GlobeState)
    requires Inv(s)
    ensures Inv(r)
    ensures !Listens(s.scheme, ev) ==> r == s
  {
    if !Listens(s.scheme, ev) then s
    else match ev
      case TouchStart(x) => OnTouchStart(s, x)
      case TouchEnd(x) => OnTouchEnd(s, x)
      case MouseDown(x) => OnMouseDown(s, x)
      case MouseUp(x) => OnMouseUp(s, x)
  }

  /** Everything that can happen to the page after `init`, one event-loop task at a time. */
  datatype Event =
    | Pointer(input: InputEvent)
    | TweenDone(index: nat)
    | TimerFired
    | Resized(newWidth: nat, newHeight: nat)
    | Loaded

  /** Whether `e` can occur in state `s`: a completing tween is running, the timer is armed, the model loads once. */
  predicate Enabled(s: GlobeState, e: Event)
  {
    match e
    case Pointer(_) => true
    case TweenDone(k) => k < |s.tweens|
    case TimerFired => s.cooldownArmed
    case Resized(_, h) => h > 0
    case Loaded => s.earth.None?
  }

  function Apply(s: GlobeState, e: Event): (r: GlobeState)
    requires Inv(s) && Enabled(s, e)
    ensures Inv(r)
  {
    match e
    case Pointer(ev) => Dispatch(s, ev)
    case TweenDone(k) => CompleteTween(s, k)
    case TimerFired => OnCooldownElapsed(s)
    case Resized(w, h) => OnWindowResize(s, w, h)
    case Loaded => OnModelLoaded(s)
  }

  /** Run a sequence of events; `None` if one of them cannot occur when its turn comes. */
  function Run(s: GlobeState, es: seq<Event>): (r: Option<GlobeState>)
    requires Inv(s)
    ensures r.Some? ==> Inv(r.value)
    decreases |es|
  {
    if es == [] then Some(s)
    else if !Enabled(s, es[0]) then None
    else Run(Apply(s, es[0]), es[1..])
  }
}
