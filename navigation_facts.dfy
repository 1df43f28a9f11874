/** Properties of the vanilla front end's navigation state machine. */
module NavigationFacts {
  import opened Wrappers
  import opened Catalog
  import opened Viewport
  import opened Navigation

  /** The globe is idle and zoomed out: no cooldown, no tween running. */
  predicate IdleZoomedOut(s: GlobeState)
  {
    !s.isPanning && !s.isZoomedIn && s.tweens == []
  }

  /** A rotation forward and then one backward leave the cursor where it was. */
  lemma ZoomOutRoundTrip(s: GlobeState)
    requires Inv(s)
    ensures ZoomOutAndRotate(ZoomOutAndRotate(s, 1), -1).currentEventIndex == s.currentEventIndex
    ensures ZoomOutAndRotate(ZoomOutAndRotate(s, -1), 1).currentEventIndex == s.currentEventIndex
  {
    WrapRoundTrip(s.currentEventIndex, EventCount);
  }

  /** During the cooldown an interaction changes nothing at all. */
  lemma InteractionDroppedDuringCooldown(s: GlobeState, d: Direction)
    requires Inv(s) && s.isPanning
    ensures HandleInteraction(s, d) == s
  {
  }

  /**
   * Accepted while zoomed out, an interaction starts the zoom-in whatever its
   * direction and leaves the cursor and the zoom flag alone. With the mesh
   * loaded it starts the camera tween and the pan and sets the timer; before
   * that it throws after the camera tween, and no timer is set.
   */
  lemma InteractionWhileZoomedOut(s: GlobeState, d: Direction)
    requires Inv(s) && !s.isPanning && !s.isZoomedIn
    ensures var r := HandleInteraction(s, d);
      && r.currentEventIndex == s.currentEventIndex
      && r.isPanning && !r.isZoomedIn
      && (r.cooldownArmed <==> s.earth.Some?)
    ensures HandleInteraction(s, d).tweens
      == s.tweens + if s.earth.Some? then ZoomInTweens(s) else [Tween(CameraZ(s.zoomedInZoom), NoCallback)]
    ensures HandleInteraction(s, Left) == HandleInteraction(s, Right)
  {
    assert ZoomInTweens(s.(isPanning := true)) == ZoomInTweens(s);
  }

  /**
   * Accepted while zoomed in, 'right' moves the cursor to the next event and
   * 'left' to the previous one, wrapping at both ends, and the zoom-out that
   * starts will show exactly the event now under the cursor.
   */
  lemma InteractionWhileZoomedIn(s: GlobeState, d: Direction)
    requires Inv(s) && !s.isPanning && s.isZoomedIn
    ensures var n, c := EventCount, s.currentEventIndex;
      HandleInteraction(s, d).currentEventIndex
        == if d == Right then (if c == n - 1 then 0 else c + 1) else (if c == 0 then n - 1 else c - 1)
    ensures var r := HandleInteraction(s, d);
      r.tweens == s.tweens + ZoomOutTweens(LifeEvents[r.currentEventIndex], s.defaultZoom)
    ensures HandleInteraction(s, d).isPanning && HandleInteraction(s, d).isZoomedIn
  {
    if d == Right {
      WrapForward(s.currentEventIndex, EventCount);
    } else {
      WrapBackward(s.currentEventIndex, EventCount);
    }
  }

  /** Once set, the cooldown flag stays set through every event except its own timer. */
  lemma CooldownClearedOnlyByTimer(s: GlobeState, e: Event)
    requires Inv(s) && Enabled(s, e) && s.isPanning && !e.TimerFired?
    ensures Apply(s, e).isPanning
  {
    match e
    case Pointer(ev) =>
      if Listens(s.scheme, ev) {
        match ev
        case TouchStart(x) =>
        case TouchEnd(x) =>
        case MouseDown(x) =>
        case MouseUp(x) =>
      }
    case TweenDone(k) =>
    case Resized(w, h) =>
    case Loaded =>
  }

  /** When the zoom-in's tween completes, the globe counts as zoomed in and the panel slides in. */
  lemma ZoomInCompletion(s: GlobeState, k: nat)
    requires Inv(s) && k < |s.tweens| && s.tweens[k].onComplete == ZoomInComplete
    ensures CompleteTween(s, k).isZoomedIn
    ensures CompleteTween(s, k).panelSlide == Some(Slide(PanelAxis(s.width), true))
    ensures CompleteTween(s, k).panelContent == s.panelContent
  {
  }

  /**
   * When the zoom-out's rotation completes, the globe counts as zoomed out, the
   * panel slides out and is refilled with the event the rotation turned to.
   */
  lemma ZoomOutCompletion(s: GlobeState, k: nat, next: LifeEvent)
    requires Inv(s) && k < |s.tweens| && s.tweens[k].onComplete == ZoomOutComplete(next)
    ensures !CompleteTween(s, k).isZoomedIn
    ensures CompleteTween(s, k).panelSlide == Some(Slide(PanelAxis(s.width), false))
    ensures CompleteTween(s, k).panelContent == Some(next)
    ensures s.earth.Some? ==> CompleteTween(s, k).earth.value.rotation == OrientationFor(next)
  {
    assert ZoomOutTweenFits(s.tweens[k]);
  }

  /**
   * A touch that ends interacts exactly when no cooldown runs, a touch start
   * was recorded and the finger travelled more than 50 pixels to the right,
   * and then always as 'right'; otherwise nothing changes.
   */
  lemma TouchEndBehaviour(s: GlobeState, x: real)
    requires Inv(s)
    ensures OnTouchEnd(s, x)
      == if !s.isPanning && s.touchStartX.Some? && x - s.touchStartX.value > SwipeThreshold
         then HandleInteraction(s, Right) else s
  {
  }

  /**
   * A mouse release during the cooldown, or without a press, changes nothing
   * and leaves the button recorded as down; otherwise a travel of more than
   * 50 pixels interacts in the direction of travel, and the drag ends unless
   * that interaction threw because the mesh has not loaded.
   */
  lemma MouseUpBehaviour(s: GlobeState, x: real)
    requires Inv(s)
    ensures !s.isMouseDown || s.isPanning ==> OnMouseUp(s, x) == s
    ensures s.isMouseDown && !s.isPanning ==>
      var delta := x - s.mouseStartX.value;
      var after := if delta > SwipeThreshold then HandleInteraction(s, Right)
        else if delta < -SwipeThreshold then HandleInteraction(s, Left)
        else s;
      OnMouseUp(s, x) == if s.earth.None? && Abs(delta) > SwipeThreshold then after else after.(isMouseDown := false)
  {
  }

  /** Dragging from a to b reads as 'right' exactly when dragging from b to a reads as 'left'. */
  lemma MouseDragMirror(a: real, b: real)
    ensures MouseDrag(Some(a), b) == Some(Right) <==> MouseDrag(Some(b), a) == Some(Left)
    ensures MouseDrag(Some(a), b) == None <==> MouseDrag(Some(b), a) == None
  {
  }

  /**
   * A 30-pixel drag is noise; a 60-pixel drag to the left interacts once, as
   * 'left', and leaves the button recorded as down if the mesh has not loaded.
   */
  lemma DragScenarios(s: GlobeState)
    requires Inv(s) && s.scheme == MouseInput && !s.isPanning
    ensures var pressed := Dispatch(s, MouseDown(100.0));
      Dispatch(pressed, MouseUp(130.0)) == pressed.(isMouseDown := false)
    ensures var pressed := Dispatch(s, MouseDown(100.0));
      var left := HandleInteraction(pressed, Left);
      Dispatch(pressed, MouseUp(40.0)) == if s.earth.Some? then left.(isMouseDown := false) else left
  {
    var pressed := Dispatch(s, MouseDown(100.0));
    assert MouseDrag(pressed.mouseStartX, 130.0) == None;
    assert MouseDrag(pressed.mouseStartX, 40.0) == Some(Left);
  }

  /**
   * The first half of a cycle: from an idle, zoomed-out globe with the mesh
   * loaded, 'right', the pan's completion, the camera's completion and the
   * timer leave the globe zoomed in on the same event, the panel slid in with
   * its text unchanged and the camera at the zoomed-in distance.
   */
  lemma ZoomInHalf(s: GlobeState)
    requires Inv(s) && IdleZoomedOut(s) && s.earth.Some?
    ensures var zoomedIn := OnCooldownElapsed(CompleteTween(CompleteTween(HandleInteraction(s, Right), 1), 0));
      && Inv(zoomedIn) && zoomedIn.isZoomedIn && !zoomedIn.isPanning && zoomedIn.tweens == []
      && zoomedIn.currentEventIndex == s.currentEventIndex && zoomedIn.earth.Some?
      && zoomedIn.width == s.width && zoomedIn.defaultZoom == s.defaultZoom
      && zoomedIn.panelSlide == Some(Slide(PanelAxis(s.width), true))
      && zoomedIn.panelContent == s.panelContent
      && zoomedIn.cameraZ == s.zoomedInZoom
  {
    var s1 := HandleInteraction(s, Right);
    InteractionWhileZoomedOut(s, Right);
    assert s1.tweens == ZoomInTweens(s) && s1.cooldownArmed;
    var s2 := CompleteTween(s1, 1);
    assert s2.isZoomedIn && s2.tweens == [s1.tweens[0]];
    var s3 := CompleteTween(s2, 0);
    assert s3.tweens == [] && s3.cameraZ == s.zoomedInZoom;
  }

  /**
   * The second half of a cycle: zoomed in and idle, 'right', the three
   * zoom-out completions and the timer end zoomed out and idle on the next
   * event (wrapping), with the panel slid out and showing that event, the
   * camera back at the zoomed-out distance and the globe centred and turned
   * to it.
   */
  lemma ZoomOutHalf(z: GlobeState)
    requires Inv(z) && z.isZoomedIn && !z.isPanning && z.tweens == []
    ensures var out := OnCooldownElapsed(CompleteTween(CompleteTween(CompleteTween(HandleInteraction(z, Right), 0), 0), 0));
      var next := (z.currentEventIndex + 1) % EventCount;
      && out.currentEventIndex == next
      && IdleZoomedOut(out)
      && out.panelSlide == Some(Slide(PanelAxis(z.width), false))
      && out.panelContent == Some(LifeEvents[next])
      && out.cameraZ == out.defaultZoom && out.defaultZoom == z.defaultZoom
      && out.earth == Some(Earth(OrientationFor(LifeEvents[next]), 0.0, 0.0))
  {
    var s5 := HandleInteraction(z, Right);
    InteractionWhileZoomedIn(z, Right);
    WrapIsEuclidean(z.currentEventIndex, 1, EventCount);
    var s6 := CompleteTween(s5, 0);
    var s7 := CompleteTween(s6, 0);
    var s8 := CompleteTween(s7, 0);
    assert s8.tweens == [];
  }

  /**
   * The cooldown, not the animation, is the only guard: when the timer fires
   * before the zoom-in completes, a second interaction starts a second zoom-in
   * while the first is still running.
   */
  lemma TwoZoomInsInFlight(s: GlobeState)
    requires Inv(s) && IdleZoomedOut(s) && s.earth.Some?
    ensures var twice := HandleInteraction(OnCooldownElapsed(HandleInteraction(s, Right)), Right);
      && |twice.tweens| == 4
      && twice.tweens[1].onComplete == ZoomInComplete
      && twice.tweens[3].onComplete == ZoomInComplete
  {
  }

  /**
   * Zoomed in, 'right' then 'left': the second press is dropped while the
   * cooldown runs; once the timer has fired (the zoom-out still running, so
   * still zoomed in) it moves the cursor back to where it started.
   */
  lemma RightThenLeftRestoresCursor(s: GlobeState)
    requires Inv(s) && !s.isPanning && s.isZoomedIn
    ensures var once := HandleInteraction(s, Right);
      HandleInteraction(once, Left) == once
    ensures HandleInteraction(OnCooldownElapsed(HandleInteraction(s, Right)), Left).currentEventIndex
         == s.currentEventIndex
  {
    var once := HandleInteraction(s, Right);
    var cooled := OnCooldownElapsed(once);
    assert cooled.isZoomedIn && cooled.currentEventIndex == Wrap(s.currentEventIndex, 1, EventCount);
    WrapRoundTrip(s.currentEventIndex, EventCount);
  }

  /** Resizing never touches the cursor or the zoom flag, and snaps the camera out even while zoomed in. */
  lemma ResizeWhileZoomedIn(s: GlobeState, width: nat, height: nat)
    requires Inv(s) && s.isZoomedIn && height > 0
    ensures OnWindowResize(s, width, height).isZoomedIn
    ensures OnWindowResize(s, width, height).cameraZ == CalculateZoomLevels(width, height).defaultZoom
    ensures OnWindowResize(s, width, height).cameraZ > CalculateZoomLevels(width, height).zoomedInZoom
  {
  }

  /** The rotation keeps the event's coordinates as they are: the first event's longitude of 192.3428 is not wrapped. */
  lemma OrientationUnwrapped(e: LifeEvent)
    ensures OrientationFor(e).pitch == e.lat && -OrientationFor(e).yaw == e.lon
    ensures OrientationFor(LifeEvents[0]).yaw == -192.3428
  {
  }

  /** Every state reachable from start-up by any sequence of events keeps the cursor inside the catalog. */
  lemma ReachableCursorInRange(width: nat, height: nat, es: seq<Event>)
    requires height > 0
    ensures var r := Run(Init(width, height), es);
      r.Some? ==> 0 <= r.value.currentEventIndex < EventCount
  {
  }

  /** Every event keeps the panel and the pending zoom-outs within the catalog. */
  lemma ApplyKeepsCatalog(s: GlobeState, e: Event)
    requires Inv(s) && FromCatalog(s) && Enabled(s, e)
    ensures FromCatalog(Apply(s, e))
  {
    match e
    case Pointer(ev) => DispatchKeepsCatalog(s, ev);
    case TweenDone(k) => CompletionKeepsCatalog(s, k);
    case TimerFired =>
    case Resized(w, h) =>
    case Loaded =>
  }

  /** A pointer event only ever starts zoom-outs towards catalog events. */
  lemma DispatchKeepsCatalog(s: GlobeState, ev: InputEvent)
    requires Inv(s) && FromCatalog(s)
    ensures FromCatalog(Dispatch(s, ev))
  {
    if Listens(s.scheme, ev) {
      match ev
      case TouchStart(x) =>
      case TouchEnd(x) =>
        if !s.isPanning && TouchSwipe(s.touchStartX, x).Some? {
          InteractionKeepsCatalog(s, TouchSwipe(s.touchStartX, x).value);
        }
      case MouseDown(x) =>
      case MouseUp(x) =>
        if s.isMouseDown && !s.isPanning && MouseDrag(s.mouseStartX, x).Some? {
          InteractionKeepsCatalog(s, MouseDrag(s.mouseStartX, x).value);
        }
    }
  }

  /** A completing zoom-out fills the panel with the catalog event it carries. */
  lemma CompletionKeepsCatalog(s: GlobeState, k: nat)
    requires Inv(s) && FromCatalog(s) && k < |s.tweens|
    ensures FromCatalog(CompleteTween(s, k))
  {
    var r := CompleteTween(s, k);
    assert forall j :: 0 <= j < |r.tweens| ==> r.tweens[j] == s.tweens[if j < k then j else j + 1];
  }

  /** An interaction only ever starts zoom-outs towards catalog events. */
  lemma InteractionKeepsCatalog(s: GlobeState, d: Direction)
    requires Inv(s) && FromCatalog(s)
    ensures FromCatalog(HandleInteraction(s, d))
  {
    var r := HandleInteraction(s, d);
    if !s.isPanning && s.isZoomedIn {
      assert forall j :: |s.tweens| <= j < |r.tweens| ==> r.tweens[j] in ZoomOutTweens(LifeEvents[r.currentEventIndex], s.defaultZoom);
    }
  }

  /**
   * Every state reachable from start-up shows only catalog events, and every
   * zoom-out still running will show one.
   */
  lemma {:induction false} RunKeepsCatalog(s: GlobeState, es: seq<Event>)
    requires Inv(s) && FromCatalog(s)
    ensures Run(s, es).Some? ==> FromCatalog(Run(s, es).value)
    decreases |es|
  {
    if es != [] && Enabled(s, es[0]) {
      ApplyKeepsCatalog(s, es[0]);
      RunKeepsCatalog(Apply(s, es[0]), es[1..]);
    }
  }

  /** The cooldown flag is set and no timer is pending to clear it. */
  predicate Stuck(s: GlobeState)
  {
    s.isPanning && !s.cooldownArmed
  }

  /** An interaction accepted before the mesh has loaded throws before setting the timer. */
  lemma PreloadInteractionSticks(s: GlobeState, d: Direction)
    requires Inv(s) && s.earth.None? && !s.isPanning
    ensures Stuck(HandleInteraction(s, d))
  {
  }

  /** No event unsticks the cooldown flag, moves the cursor or zooms in. */
  lemma StuckStep(s: GlobeState, e: Event)
    requires Inv(s) && Stuck(s) && Enabled(s, e)
    ensures var r := Apply(s, e);
      Stuck(r) && !r.isZoomedIn && r.currentEventIndex == s.currentEventIndex
  {
    match e
    case Pointer(ev) =>
    case TweenDone(k) =>
      assert CameraOnly(s.tweens[k]);
    case TimerFired =>
    case Resized(w, h) =>
    case Loaded =>
  }

  /**
   * Once stuck, the page stays stuck whatever happens: every later
   * interaction is dropped, the globe never zooms in and the cursor never
   * moves.
   */
  lemma {:induction false} StuckForever(s: GlobeState, es: seq<Event>)
    requires Inv(s) && Stuck(s)
    ensures var r := Run(s, es);
      r.Some? ==> Stuck(r.value) && !r.value.isZoomedIn && r.value.currentEventIndex == s.currentEventIndex
    decreases |es|
  {
    if es != [] && Enabled(s, es[0]) {
      StuckStep(s, es[0]);
      StuckForever(Apply(s, es[0]), es[1..]);
    }
  }

  /**
   * On a wide window, a 100-pixel drag before the globe model has loaded
   * freezes the page: only the camera tween starts, no timer is set, the
   * button stays recorded as down, and no later sequence of events ever
   * zooms in.
   */
  lemma PreloadDragFreezes(width: nat, height: nat)
    requires height > 0 && !IsMobile(width)
    ensures var dragged := Dispatch(Dispatch(Init(width, height), MouseDown(0.0)), MouseUp(100.0));
      && Stuck(dragged) && dragged.isMouseDown && |dragged.tweens| == 1 && CameraOnly(dragged.tweens[0])
    ensures var dragged := Dispatch(Dispatch(Init(width, height), MouseDown(0.0)), MouseUp(100.0));
      forall es :: Run(dragged, es).Some? ==> Stuck(Run(dragged, es).value) && !Run(dragged, es).value.isZoomedIn
  {
    var pressed := Dispatch(Init(width, height), MouseDown(0.0));
    assert MouseDrag(pressed.mouseStartX, 100.0) == Some(Right);
    var dragged := Dispatch(pressed, MouseUp(100.0));
    InteractionWhileZoomedOut(pressed, Right);
    forall es | Run(dragged, es).Some?
      ensures Stuck(Run(dragged, es).value) && !Run(dragged, es).value.isZoomedIn
    {
      StuckForever(dragged, es);
    }
  }

  /** With the ready guard, input before the mesh has loaded changes nothing at all. */
  lemma ReadyGuardIgnoresPreloadInput(width: nat, height: nat, d: Direction)
    requires height > 0
    ensures HandleInteractionWhenReady(Init(width, height), d) == Init(width, height)
  {
  }

  /**
   * The zoom-in's camera tween runs 3.3 s, while the pan and the timer take
   * 1.5 s: once both are done, the globe is zoomed in, accepts input, and the
   * camera tween is still running.
   */
  lemma PanOutrunsCameraTween(s: GlobeState)
    requires Inv(s) && IdleZoomedOut(s) && s.earth.Some?
    ensures var cooled := OnCooldownElapsed(CompleteTween(HandleInteraction(s, Right), 1));
      && Inv(cooled) && cooled.isZoomedIn && !cooled.isPanning
      && cooled.tweens == [Tween(CameraZ(s.zoomedInZoom), NoCallback)]
      && cooled.zoomedInZoom == s.zoomedInZoom
  {
    InteractionWhileZoomedOut(s, Right);
  }

  /**
   * No tween cancels another. A zoom-out started while the zoom-in's camera
   * tween still runs can finish first; that camera tween then ends last,
   * leaving the camera at the zoomed-in distance while the globe counts as
   * zoomed out.
   */
  lemma CameraTweenOutlivesZoomOut(s: GlobeState)
    requires Inv(s) && s.isZoomedIn && !s.isPanning
    requires s.tweens == [Tween(CameraZ(s.zoomedInZoom), NoCallback)]
    ensures var rotated := HandleInteraction(s, Right);
      var out := CompleteTween(CompleteTween(CompleteTween(CompleteTween(rotated, 1), 1), 1), 0);
      && !out.isZoomedIn && out.tweens == []
      && out.cameraZ == s.zoomedInZoom && out.cameraZ < out.defaultZoom
  {
    var rotated := HandleInteraction(s, Right);
    InteractionWhileZoomedIn(s, Right);
    assert |rotated.tweens| == 4 && rotated.tweens[0] == s.tweens[0];
    var a := CompleteTween(rotated, 1);
    var b := CompleteTween(a, 1);
    var c := CompleteTween(b, 1);
    assert !c.isZoomedIn && c.tweens == s.tweens;
  }
}
