/**
 * The vanilla front end's module-level variables as the fields of one object,
 * and its handlers and completion callbacks as methods that update them in
 * place. Each method's new state is the corresponding step of module
 * Navigation applied to the old state, so every property proved there holds
 * of the object.
 */
module Globe {
  import opened Wrappers
  import opened Catalog
  import opened Viewport
  import opened Navigation

  class Globe {
    var width: nat
    var height: nat
    const scheme: InputScheme
    var currentEventIndex: int
    var isZoomedIn: bool
    var isPanning: bool
    var cooldownArmed: bool
    var defaultZoom: real
    var zoomedInZoom: real
    var cameraZ: real
    var earth: Option<Earth>
    var panelSlide: Option<Slide>
    var panelContent: Option<LifeEvent>
    var tweens: seq<Tween>
    var touchStartX: Option<real>
    var isMouseDown: bool
    var mouseStartX: Option<real>

    /** The object's fields as one value of the state machine. */
    function Snapshot(): GlobeState
      reads this
    {
      GlobeState(width, height, scheme, currentEventIndex, isZoomedIn, isPanning, cooldownArmed,
        defaultZoom, zoomedInZoom, cameraZ, earth, panelSlide, panelContent, tweens,
        touchStartX, isMouseDown, mouseStartX)
    }

    ghost predicate Valid()
      reads this
    {
      Inv(Snapshot())
    }

    /** `init()`: zoom levels, camera, listeners; the globe model is still loading. */
    constructor (innerWidth: nat, innerHeight: nat)
      requires innerHeight > 0
      ensures Valid() && Snapshot() == Init(innerWidth, innerHeight)
    {
      width, height := innerWidth, innerHeight;
      scheme := if IsMobile(innerWidth) then TouchInput else MouseInput;
      currentEventIndex, isZoomedIn, isPanning, cooldownArmed := 0, false, false, false;
      defaultZoom, zoomedInZoom, cameraZ := 0.0, 0.0, 0.0;
      earth, panelSlide, panelContent, tweens := None, None, None, [];
      touchStartX, isMouseDown, mouseStartX := None, false, None;
      new;
      CalculateZoomLevels();
      cameraZ := defaultZoom;
    }

    /** `calculateZoomLevels()`: both distances from the current window. */
    method CalculateZoomLevels()
      requires height > 0
      modifies this
      ensures Snapshot() == old(Snapshot()).(defaultZoom := defaultZoom, zoomedInZoom := zoomedInZoom)
      ensures ZoomLevels(defaultZoom, zoomedInZoom) == Viewport.CalculateZoomLevels(width, height)
    {
      var aspect := width as real / height as real;
      var baseZoom := Max(2.0, 3.0 - aspect);
      defaultZoom := baseZoom;
      zoomedInZoom := baseZoom * 0.6;
      if IsMobile(width) {
        defaultZoom := defaultZoom * 1.2;
        zoomedInZoom := zoomedInZoom * 1.2;
      }
    }

    method PositionEarthToEvent(e: LifeEvent)
      modifies this
      ensures Snapshot() == Navigation.PositionEarthToEvent(old(Snapshot()), e)
    {
      if earth.None? {
        return;
      }
      earth := Some(earth.value.(rotation := OrientationFor(e), y := 0.0));
    }

    method UpdateInfoPanel(e: LifeEvent)
      modifies this
      ensures Snapshot() == Navigation.UpdateInfoPanel(old(Snapshot()), e)
    {
      panelContent := Some(e);
    }

    method ShowInfoPanel()
      modifies this
      ensures Snapshot() == Navigation.ShowInfoPanel(old(Snapshot()))
    {
      panelSlide := Some(Slide(if IsMobile(width) then Vertical else Horizontal, true));
    }

    method HideInfoPanel()
      modifies this
      ensures Snapshot() == Navigation.HideInfoPanel(old(Snapshot()))
    {
      panelSlide := Some(Slide(if IsMobile(width) then Vertical else Horizontal, false));
    }

    /** The glTF loader's success callback. */
    method OnModelLoaded()
      requires Valid()
      modifies this
      ensures Valid() && Snapshot() == Navigation.OnModelLoaded(old(Snapshot()))
    {
      earth := Some(Earth(Orientation(0.0, 0.0), 0.0, 0.0));
      PositionEarthToEvent(LifeEvents[currentEventIndex]);
      UpdateInfoPanel(LifeEvents[currentEventIndex]);
    }

    /** `zoomInAndPan()`; `threw` reports the TypeError raised on a missing mesh after the camera tween. */
    method ZoomInAndPan() returns (threw: bool)
      requires height > 0
      modifies this
      ensures Snapshot() == Navigation.ZoomInAndPan(old(Snapshot()))
      ensures threw <==> old(earth).None?
    {
      var portrait := width as real / height as real < 1.0;
      var yOffset := if portrait then -0.5 else 0.0;
      var xOffset := if portrait then 0.0 else -0.25;
      tweens := tweens + [Tween(CameraZ(zoomedInZoom), NoCallback)];
      if earth.None? {
        return true;
      }
      tweens := tweens + [Tween(EarthPosition(xOffset, yOffset), ZoomInComplete)];
      return false;
    }

    /** `zoomOutAndRotate(direction)`; `threw` reports the TypeError raised on a missing mesh after the camera tween. */
    method ZoomOutAndRotate(direction: int) returns (threw: bool)
      requires 0 <= currentEventIndex < EventCount
      requires direction == 1 || direction == -1
      modifies this
      ensures Snapshot() == Navigation.ZoomOutAndRotate(old(Snapshot()), direction)
      ensures threw <==> old(earth).None?
    {
      CatalogSize();
      currentEventIndex := (currentEventIndex + direction + |LifeEvents|) % |LifeEvents|;
      var nextEvent := LifeEvents[currentEventIndex];
      tweens := tweens + [Tween(CameraZ(defaultZoom), NoCallback)];
      if earth.None? {
        return true;
      }
      tweens := tweens + [Tween(EarthPosition(0.0, 0.0), NoCallback)];
      tweens := tweens + [Tween(EarthRotation(OrientationFor(nextEvent)), ZoomOutComplete(nextEvent))];
      return false;
    }

    /**
     * `handleInteraction(direction)`; `threw` reports that a zoom threw, which
     * skips the timer here and the rest of the calling listener.
     */
    method HandleInteraction(d: Direction) returns (threw: bool)
      requires Valid()
      modifies this
      ensures Valid() && Snapshot() == Navigation.HandleInteraction(old(Snapshot()), d)
      ensures threw <==> InteractionThrows(old(Snapshot()))
    {
      if isPanning {
        return false;
      }
      isPanning := true;
      if !isZoomedIn {
        threw := ZoomInAndPan();
      } else if d == Right {
        threw := ZoomOutAndRotate(1);
      } else {
        threw := ZoomOutAndRotate(-1);
      }
      if threw {
        return;
      }
      cooldownArmed := true;
    }

    /** A tween's property reaches its end value. */
    method ApplyTarget(t: Target)
      modifies this
      ensures Snapshot() == Navigation.ApplyTarget(old(Snapshot()), t)
    {
      match t {
        case CameraZ(z) =>
          cameraZ := z;
        case EarthPosition(x, y) =>
          if earth.Some? {
            earth := Some(earth.value.(x := x, y := y));
          }
        case EarthRotation(o) =>
          if earth.Some? {
            earth := Some(earth.value.(rotation := o));
          }
      }
    }

    /** A tween's `onComplete` runs. */
    method RunCallback(c: Callback)
      modifies this
      ensures Snapshot() == Navigation.RunCallback(old(Snapshot()), c)
    {
      match c {
        case NoCallback =>
        case ZoomInComplete =>
          isZoomedIn := true;
          ShowInfoPanel();
        case ZoomOutComplete(nextEvent) =>
          isZoomedIn := false;
          HideInfoPanel();
          UpdateInfoPanel(nextEvent);
      }
    }

    /** The running tween at position `k` completes and its callback runs. */
    method CompleteTween(k: nat)
      requires Valid() && k < |tweens|
      modifies this
      ensures Valid() && Snapshot() == Navigation.CompleteTween(old(Snapshot()), k)
    {
      var t := tweens[k];
      ApplyTarget(t.target);
      tweens := tweens[..k] + tweens[k + 1..];
      RunCallback(t.onComplete);
    }

    /** The 1500 ms timer set by `handleInteraction` fires. */
    method OnCooldownElapsed()
      requires Valid() && cooldownArmed
      modifies this
      ensures Valid() && Snapshot() == Navigation.OnCooldownElapsed(old(Snapshot()))
    {
      isPanning := false;
      cooldownArmed := false;
    }

    method OnWindowResize(innerWidth: nat, innerHeight: nat)
      requires Valid() && innerHeight > 0
      modifies this
      ensures Valid() && Snapshot() == Navigation.OnWindowResize(old(Snapshot()), innerWidth, innerHeight)
    {
      width, height := innerWidth, innerHeight;
      CalculateZoomLevels();
      cameraZ := defaultZoom;
      PositionEarthToEvent(LifeEvents[currentEventIndex]);
    }

    method OnTouchStart(x: real)
      modifies this
      ensures Snapshot() == Navigation.OnTouchStart(old(Snapshot()), x)
    {
      touchStartX := Some(x);
    }

    method OnTouchEnd(x: real)
      requires Valid()
      modifies this
      ensures Valid() && Snapshot() == Navigation.OnTouchEnd(old(Snapshot()), x)
    {
      if isPanning {
        return;
      }
      if touchStartX.Some? && x - touchStartX.value > SwipeThreshold {
        var _ := HandleInteraction(Right);
      }
    }

    method OnMouseDown(x: real)
      modifies this
      ensures Snapshot() == Navigation.OnMouseDown(old(Snapshot()), x)
    {
      isMouseDown := true;
      mouseStartX := Some(x);
    }

    method OnMouseUp(x: real)
      requires Valid()
      modifies this
      ensures Valid() && Snapshot() == Navigation.OnMouseUp(old(Snapshot()), x)
    {
      if !isMouseDown || isPanning {
        return;
      }
      var deltaX := x - mouseStartX.value;
      if Abs(deltaX) > SwipeThreshold {
        var threw;
        if deltaX > 0.0 {
          threw := HandleInteraction(Right);
        } else {
          threw := HandleInteraction(Left);
        }
        if threw {
          return;
        }
      }
      isMouseDown := false;
    }

    /** Deliver a pointer event to whichever listeners `init` registered. */
    method Dispatch(ev: InputEvent)
      requires Valid()
      modifies this
      ensures Valid() && Snapshot() == Navigation.Dispatch(old(Snapshot()), ev)
    {
      if !Listens(scheme, ev) {
        return;
      }
      match ev {
        case TouchStart(x) => OnTouchStart(x);
        case TouchEnd(x) => OnTouchEnd(x);
        case MouseDown(x) => OnMouseDown(x);
        case MouseUp(x) => OnMouseUp(x);
      }
    }
  }
}
