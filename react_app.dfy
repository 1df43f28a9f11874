/**
 * The React front end's `App` component (src/components/Projects.js): the
 * same cursor and zoom logic as the vanilla page, driven by two arrow buttons,
 * with no cooldown and with the info panel hidden when the zoom-out starts.
 * State is a snapshot of the component's state hooks plus the GSAP tweens on
 * `.earth-container` that are still running.
 */
module ReactApp {
  import opened Wrappers
  import opened Catalog
  import Viewport

  /** The catalog of the React front end: the same places and coordinates, other texts. */
  const LifeEvents: seq<LifeEvent> := [
    LifeEvent("Dhaka, Bangladesh", 15.0906, 192.3428, "0",
      "Born in Dhaka, in the vibrant capital of Bangladesh. I begun my life here, while I did have a very short stay here. I visited family every year after moving to Dubai. Embracing my time with my cousins and reflecting on how different both the countries can be."),
    LifeEvent("Dubai, United Arab Emirates", 19.4752, 140.0686, "3 months old",
      "Moved to Dubai at just 3 months old. My parents, full of hope and ambition, started our new life in a modest environment. Growing up surrounded by tall sky scrapers juxtaposed by small cornershops, I witnessed its immense growth and development. The blend of traditional Arab culture with international influences shaped my early worldview."),
    LifeEvent("New York, United States", 34.9451, 12.8719, "17 years old",
      "At 17, I embarked on a trip to the United States with my family. During my trip here, going across to diners, strip malls and taking in the cultural influence helped me realize that it would ultimately be one of my dream desires to be able to study and gain experience somewhere within North America."),
    LifeEvent("Manitoba, Canada", 39.5288, -8.9005, "20 years old",
      "I had moved to Canada, to pursue a Computer Science degree at the University of Manitoba. The adjustment from the desert climate of Dubai to the harsh Canadian winters was challenging but exhilarating. Over the past two years, I've immersed myself in a new culture, joined various student groups, and built a diverse network of friends from around the world. The Canadian emphasis on multiculturalism has allowed me to embrace my background while integrating into a new society. My journey so far has been both challenging and rewarding, where I hope that I can continue to work with people from all walks of life.")
  ]

  /** The two arrow buttons. */
  datatype Arrow = PrevArrow | NextArrow

  function StepOf(a: Arrow): (step: int)
    ensures step == 1 || step == -1
    ensures step == 1 <==> a == NextArrow
  {
    if a == NextArrow then 1 else -1
  }

  /** Where the last tween on `.info-panel` takes it: slid in (x: 0) or out (x: 100%). */
  datatype PanelTarget = SlidIn | SlidOut

  /** What a scale tween's `onComplete` does. */
  datatype Completion = ZoomedIn | ZoomedOut

  /** A running tween of the `.earth-container` scale. */
  datatype ScaleTween = ScaleTween(scale: real, onComplete: Completion)

  datatype AppState = AppState(
    currentEventIndex: int,
    isZoomedIn: bool,
    isMobile: bool,
    containerScale: Option<real>,  // None while the stylesheet's scale applies
    panel: Option<PanelTarget>,    // None before any panel tween
    swipeTextShown: bool,          // the swipe hint has been faded in
    tweens: seq<ScaleTween>)

  ghost predicate Inv(s: AppState)
  {
    0 <= s.currentEventIndex < |LifeEvents|
  }

  /**
   * The component after mounting: first event, zoomed out, nothing animated,
   * and `isMobile` already set by the resize handler's immediate first call.
   */
  function Mount(innerWidth: nat): (s: AppState)
    ensures Inv(s) && s.currentEventIndex == 0 && !s.isZoomedIn && s.tweens == []
    ensures s.isMobile <==> innerWidth <= 768
  {
    AppState(0, false, Viewport.IsMobile(innerWidth), None, None, false, [])
  }

  /** The resize listener: `isMobile` follows the width test; nothing else changes. */
  function HandleResize(s: AppState, innerWidth: nat): (r: AppState)
    ensures r.isMobile <==> innerWidth <= 768
    ensures r.(isMobile := s.isMobile) == s
  {
    s.(isMobile := Viewport.IsMobile(innerWidth))
  }

  /** `zoomInAndPan`: start scaling the globe up; only completion sets `isZoomedIn`. */
  function ZoomInAndPan(s: AppState): (r: AppState)
    ensures r.tweens == s.tweens + [ScaleTween(1.5, ZoomedIn)]
    ensures r.(tweens := s.tweens) == s
  {
    s.(tweens := s.tweens + [ScaleTween(1.5, ZoomedIn)])
  }

  /**
   * `zoomOutAndRotate(direction)`: the state updater moves the cursor, the
   * panel starts sliding out at once, and the globe starts scaling back.
   */
  function ZoomOutAndRotate(s: AppState, direction: int): (r: AppState)
    requires Inv(s) && (direction == 1 || direction == -1)
    ensures Inv(r)
    ensures r.currentEventIndex == (s.currentEventIndex + direction) % |LifeEvents|
    ensures r.panel == Some(SlidOut) && r.isZoomedIn == s.isZoomedIn
    ensures r.tweens == s.tweens + [ScaleTween(1.0, ZoomedOut)]
  {
    WrapIsEuclidean(s.currentEventIndex, direction, |LifeEvents|);
    s.(currentEventIndex := Wrap(s.currentEventIndex, direction, |LifeEvents|),
       panel := Some(SlidOut),
       tweens := s.tweens + [ScaleTween(1.0, ZoomedOut)])
  }

  /** `handleNextEvent`: zoomed in, rotate forward; otherwise zoom in. */
  function HandleNextEvent(s: AppState): (r: AppState)
    requires Inv(s)
    ensures Inv(r)
  {
    if s.isZoomedIn then ZoomOutAndRotate(s, 1) else ZoomInAndPan(s)
  }

  /** `handlePrevEvent`: zoomed in, rotate backward; otherwise zoom in. */
  function HandlePrevEvent(s: AppState): (r: AppState)
    requires Inv(s)
    ensures Inv(r)
  {
    if s.isZoomedIn then ZoomOutAndRotate(s, -1) else ZoomInAndPan(s)
  }

  function Click(s: AppState, a: Arrow): (r: AppState)
    requires Inv(s)
    ensures Inv(r)
  {
    if a == NextArrow then HandleNextEvent(s) else HandlePrevEvent(s)
  }

  /**
   * The scale tween at position `k` completes: the container reaches its
   * scale, then zoom-in slides the panel in, zoom-out fades the swipe hint in.
   */
  function CompleteTween(s: AppState, k: nat): (r: AppState)
    requires Inv(s) && k < |s.tweens|
    ensures Inv(r) && r.currentEventIndex == s.currentEventIndex
    ensures r.tweens == s.tweens[..k] + s.tweens[k + 1..]
    ensures r.containerScale == Some(s.tweens[k].scale)
  {
    var t := s.tweens[k];
    var scaled := s.(containerScale := Some(t.scale), tweens := s.tweens[..k] + s.tweens[k + 1..]);
    match t.onComplete
    case ZoomedIn => scaled.(isZoomedIn := true, panel := Some(SlidIn))
    case ZoomedOut => scaled.(isZoomedIn := false, swipeTextShown := true)
  }

  /** The event handed to the globe scene and the one handed to the info panel. */
  datatype RenderedEvents = RenderedEvents(scene: LifeEvent, panel: LifeEvent)

  /** What `App` renders: scene and panel always receive the catalog event under the cursor. */
  function Render(s: AppState): (r: RenderedEvents)
    requires Inv(s)
    ensures r.scene == r.panel && r.scene in LifeEvents
    ensures r.scene == LifeEvents[s.currentEventIndex]
  {
    RenderedEvents(LifeEvents[s.currentEventIndex], LifeEvents[s.currentEventIndex])
  }

  /** Zoomed in, 'next' moves to the following event, wrapping, and hides the panel before any animation ends. */
  lemma NextWhileZoomedIn(s: AppState)
    requires Inv(s) && s.isZoomedIn
    ensures var c := s.currentEventIndex;
      HandleNextEvent(s).currentEventIndex == if c == |LifeEvents| - 1 then 0 else c + 1
    ensures HandleNextEvent(s).panel == Some(SlidOut) && HandleNextEvent(s).isZoomedIn
  {
    WrapForward(s.currentEventIndex, |LifeEvents|);
  }

  /** Zoomed out, either arrow starts the zoom-in and leaves the cursor alone. */
  lemma ArrowWhileZoomedOut(s: AppState, a: Arrow)
    requires Inv(s) && !s.isZoomedIn
    ensures Click(s, a).currentEventIndex == s.currentEventIndex
    ensures Click(s, a).tweens == s.tweens + [ScaleTween(1.5, ZoomedIn)]
    ensures Click(s, PrevArrow) == Click(s, NextArrow)
  {
  }

  /** Zoomed in, 'previous' moves to the preceding event; from the first event it goes to the last. */
  lemma PrevWhileZoomedIn(s: AppState)
    requires Inv(s) && s.isZoomedIn
    ensures var c := s.currentEventIndex;
      HandlePrevEvent(s).currentEventIndex == if c == 0 then |LifeEvents| - 1 else c - 1
    ensures s.currentEventIndex == 0 ==> HandlePrevEvent(s).currentEventIndex == 3
  {
    WrapBackward(s.currentEventIndex, |LifeEvents|);
  }

  /** When the zoom-in's tween completes the app is zoomed in and the panel slides in. */
  lemma ZoomInCompletion(s: AppState, k: nat)
    requires Inv(s) && k < |s.tweens| && s.tweens[k].onComplete == ZoomedIn
    ensures CompleteTween(s, k).isZoomedIn && CompleteTween(s, k).panel == Some(SlidIn)
  {
  }

  /** When the zoom-out's tween completes the app is zoomed out and shows the swipe hint; the panel is left as it is. */
  lemma ZoomOutCompletion(s: AppState, k: nat)
    requires Inv(s) && k < |s.tweens| && s.tweens[k].onComplete == ZoomedOut
    ensures !CompleteTween(s, k).isZoomedIn && CompleteTween(s, k).swipeTextShown
    ensures CompleteTween(s, k).panel == s.panel
  {
  }

  /** The cursor steps of a sequence of arrow clicks. */
  function Steps(arrows: seq<Arrow>): (steps: seq<int>)
    ensures |steps| == |arrows| && UnitSteps(steps)
  {
    seq(|arrows|, i requires 0 <= i < |arrows| => StepOf(arrows[i]))
  }

  /** Clicking the arrows in turn, with no animation completing in between. */
  function Clicks(s: AppState, arrows: seq<Arrow>): (r: AppState)
    requires Inv(s)
    ensures Inv(r)
    decreases |arrows|
  {
    if arrows == [] then s else Clicks(Click(s, arrows[0]), arrows[1..])
  }

  /**
   * There is no in-flight guard: while zoomed in, every click is acted on at
   * once. Any burst of clicks walks the cursor step by step, starts one
   * zoom-out per click, and leaves the app zoomed in until one completes.
   */
  lemma {:induction false} ClicksWhileZoomedIn(s: AppState, arrows: seq<Arrow>)
    requires Inv(s) && s.isZoomedIn
    ensures Clicks(s, arrows).currentEventIndex == Walk(s.currentEventIndex, Steps(arrows), |LifeEvents|)
    ensures Clicks(s, arrows).isZoomedIn
    ensures |Clicks(s, arrows).tweens| == |s.tweens| + |arrows|
    decreases |arrows|
  {
    if arrows != [] {
      var next := Click(s, arrows[0]);
      ClicksWhileZoomedIn(next, arrows[1..]);
      assert Steps(arrows)[1..] == Steps(arrows[1..]);
      assert Steps(arrows)[0] == StepOf(arrows[0]);
    }
  }

  /** Two quick 'next' clicks while zoomed in advance the cursor by two. */
  lemma TwoQuickNextClicks(s: AppState)
    requires Inv(s) && s.isZoomedIn
    ensures Clicks(s, [NextArrow, NextArrow]).currentEventIndex == (s.currentEventIndex + 2) % |LifeEvents|
  {
    ClicksWhileZoomedIn(s, [NextArrow, NextArrow]);
    WalkIsNetDisplacement(s.currentEventIndex, Steps([NextArrow, NextArrow]), |LifeEvents|);
    assert Sum(Steps([NextArrow, NextArrow])) == 2;
  }

  /** 'next' then 'previous' while zoomed in returns the cursor to where it was. */
  lemma NextThenPrevRestores(s: AppState)
    requires Inv(s) && s.isZoomedIn
    ensures HandlePrevEvent(HandleNextEvent(s)).currentEventIndex == s.currentEventIndex
  {
    WrapRoundTrip(s.currentEventIndex, |LifeEvents|);
  }
}

/** `App` as a component object whose state hooks are its fields. */
module ReactComponent {
  import opened Wrappers
  import opened Catalog
  import Viewport
  import opened ReactApp

  class App {
    var currentEventIndex: int
    var isZoomedIn: bool
    var isMobile: bool
    var containerScale: Option<real>
    var panel: Option<PanelTarget>
    var swipeTextShown: bool
    var tweens: seq<ScaleTween>

    function Snapshot(): AppState
      reads this
    {
      AppState(currentEventIndex, isZoomedIn, isMobile, containerScale, panel, swipeTextShown, tweens)
    }

    ghost predicate Valid()
      reads this
    {
      Inv(Snapshot())
    }

    /** Mounting: initial state, then the resize handler runs once. */
    constructor (innerWidth: nat)
      ensures Valid() && Snapshot() == Mount(innerWidth)
    {
      currentEventIndex, isZoomedIn, isMobile := 0, false, false;
      containerScale, panel, swipeTextShown, tweens := None, None, false, [];
      new;
      HandleResize(innerWidth);
    }

    method HandleResize(innerWidth: nat)
      modifies this
      ensures Snapshot() == ReactApp.HandleResize(old(Snapshot()), innerWidth)
    {
      isMobile := innerWidth <= 768;
    }

    method ShowInfoPanel()
      modifies this
      ensures Snapshot() == old(Snapshot()).(panel := Some(SlidIn))
    {
      panel := Some(SlidIn);
    }

    method HideInfoPanel()
      modifies this
      ensures Snapshot() == old(Snapshot()).(panel := Some(SlidOut))
    {
      panel := Some(SlidOut);
    }

    method ShowSwipeText()
      modifies this
      ensures Snapshot() == old(Snapshot()).(swipeTextShown := true)
    {
      swipeTextShown := true;
    }

    method ZoomInAndPan()
      modifies this
      ensures Snapshot() == ReactApp.ZoomInAndPan(old(Snapshot()))
    {
      tweens := tweens + [ScaleTween(1.5, ZoomedIn)];
    }

    method ZoomOutAndRotate(direction: int)
      requires Valid() && (direction == 1 || direction == -1)
      modifies this
      ensures Valid() && Snapshot() == ReactApp.ZoomOutAndRotate(old(Snapshot()), direction)
    {
      currentEventIndex := (currentEventIndex + direction + |LifeEvents|) % |LifeEvents|;
      HideInfoPanel();
      tweens := tweens + [ScaleTween(1.0, ZoomedOut)];
    }

    method HandleNextEvent()
      requires Valid()
      modifies this
      ensures Valid() && Snapshot() == ReactApp.HandleNextEvent(old(Snapshot()))
    {
      if isZoomedIn {
        ZoomOutAndRotate(1);
      } else {
        ZoomInAndPan();
      }
    }

    method HandlePrevEvent()
      requires Valid()
      modifies this
      ensures Valid() && Snapshot() == ReactApp.HandlePrevEvent(old(Snapshot()))
    {
      if isZoomedIn {
        ZoomOutAndRotate(-1);
      } else {
        ZoomInAndPan();
      }
    }

    /** The scale tween at position `k` completes and its callback runs. */
    method CompleteTween(k: nat)
      requires Valid() && k < |tweens|
      modifies this
      ensures Valid() && Snapshot() == ReactApp.CompleteTween(old(Snapshot()), k)
    {
      var t := tweens[k];
      containerScale := Some(t.scale);
      tweens := tweens[..k] + tweens[k + 1..];
      match t.onComplete {
        case ZoomedIn =>
          isZoomedIn := true;
          ShowInfoPanel();
        case ZoomedOut =>
          isZoomedIn := false;
          ShowSwipeText();
      }
    }
  }
}
