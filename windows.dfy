/**
 * The floating-window switcher and the project gallery of projects.js: opening
 * a window hides every floating window and shows the one asked for, close
 * buttons hide their own window, and the gallery is rebuilt from the project
 * list each time the projects window opens.
 */
module Windows {
  import opened Wrappers

  /** One entry of the project list; none of the entries has a `link`. */
  datatype Project = Project(name: string, desc: string, imgName: string, link: Option<string>)

  const ProjectsData: seq<Project> := [
    Project("Dashcam Footage Analyzer", "A tool that analyzes dashcam footage for safety and insurance purposes.", "dashcam-image.jpg", None),
    Project("CData", "A comprehensive data management and analysis platform.", "cdata-image.jpg", None),
    Project("Last Stop", "An innovative public transportation app for efficient travel planning.", "last-stop-image.jpg", None),
    Project("GlobeNews", "A global news aggregator with personalized content delivery.", "globenews-image.jpg", None),
    Project("Job Fit", "An AI-powered job matching platform for job seekers and employers.", "job-fit-image.jpg", None)
  ]

  /** A project card's content: image source and alt text, title, description and link target. */
  datatype Card = Card(imageSrc: string, imageAlt: string, title: string, description: string, href: Option<string>)

  /** The card the gallery builds for a project: its image, its name as alt text and title, its description and link. */
  function CardFor(p: Project): Card
  {
    Card(p.imgName, p.name, p.name, p.desc, p.link)
  }

  /** The gallery for a project list: one card per project, in the list's order. */
  function Cards(projects: seq<Project>): (cards: seq<Card>)
    ensures |cards| == |projects|
    ensures forall i :: 0 <= i < |projects| ==> cards[i] == CardFor(projects[i])
  {
    if projects == [] then [] else [CardFor(projects[0])] + Cards(projects[1..])
  }

  /** An element's inline `style.display`: never set, `'none'` or `'block'`. */
  datatype Display = Unset | Hidden | Shown

  const ProjectsWindowId: string := "projectsWindow"

  /** `document.getElementById` over the floating windows: the first one, in document order, with that id. */
  function FirstIndexOf(ids: seq<string>, id: string): (r: Option<nat>)
    ensures r.None? <==> id !in ids
    ensures r.Some? ==> r.value < |ids| && ids[r.value] == id
    ensures r.Some? ==> forall j :: 0 <= j < r.value ==> ids[j] != id
  {
    if ids == [] then None
    else if ids[0] == id then Some(0)
    else match FirstIndexOf(ids[1..], id)
      case None => None
      case Some(k) => Some(k + 1)
  }

  /** The inline display of every floating window after `openWindow(id)`, whatever it was before. */
  function OpenedDisplays(ids: seq<string>, id: string): (ds: seq<Display>)
    ensures |ds| == |ids|
    ensures forall i :: 0 <= i < |ids| ==> ds[i] != Unset
  {
    seq(|ids|, i requires 0 <= i < |ids| => if FirstIndexOf(ids, id) == Some(i) then Shown else Hidden)
  }

  /** After opening, at most one floating window is shown. */
  lemma AtMostOneShown(ids: seq<string>, id: string, i: nat, j: nat)
    requires i < |ids| && j < |ids|
    requires OpenedDisplays(ids, id)[i] == Shown && OpenedDisplays(ids, id)[j] == Shown
    ensures i == j
  {
  }

  /** Opening an id that names a floating window shows that window and hides all others. */
  lemma OpenedWindowIsOnlyOneShown(ids: seq<string>, id: string, i: nat)
    requires i < |ids| && ids[i] == id && forall j :: 0 <= j < i ==> ids[j] != id
    ensures OpenedDisplays(ids, id)[i] == Shown
    ensures forall j :: 0 <= j < |ids| && j != i ==> OpenedDisplays(ids, id)[j] == Hidden
  {
    var first := FirstIndexOf(ids, id).value;
    assert ids[first] == id && ids[i] == id;
  }

  /** Opening an id that names no floating window leaves them all hidden. */
  lemma UnknownIdHidesAll(ids: seq<string>, id: string)
    requires id !in ids
    ensures forall j :: 0 <= j < |ids| ==> OpenedDisplays(ids, id)[j] == Hidden
  {
    assert FirstIndexOf(ids, id).None?;
  }

  /** The display the browser computes: an unset inline value falls back to the stylesheet's. */
  function ComputedDisplay(inline: Display, stylesheet: Display): (d: Display)
    requires stylesheet != Unset
    ensures d != Unset
    ensures inline != Unset ==> d == inline
  {
    if inline == Unset then stylesheet else inline
  }

  /** The page's floating windows and project grid. */
  class Page {
    /** The ids of the `.floating-window` elements, in document order. */
    const ids: seq<string>
    /** Their inline `style.display`, in the same order. */
    const display: array<Display>
    /** Whether a `#projectGrid` element exists. */
    const hasGrid: bool
    /** The cards currently in the grid. */
    var grid: seq<Card>

    ghost predicate Valid()
      reads this
    {
      display.Length == |ids|
    }

    constructor (windowIds: seq<string>, gridPresent: bool)
      ensures Valid() && fresh(display)
      ensures ids == windowIds && hasGrid == gridPresent && grid == []
      ensures forall i :: 0 <= i < display.Length ==> display[i] == Unset
    {
      ids := windowIds;
      hasGrid := gridPresent;
      display := new Display[|windowIds|](_ => Unset);
      grid := [];
    }

    /**
     * `generateProjectCards()`: without a grid nothing happens; otherwise the
     * grid is emptied and one card per project appended in order, so calling
     * it again yields the same grid.
     */
    method GenerateProjectCards()
      modifies this
      ensures grid == if hasGrid then Cards(ProjectsData) else old(grid)
    {
      if !hasGrid {
        return;
      }
      grid := [];
      var i := 0;
      while i < |ProjectsData|
        invariant 0 <= i <= |ProjectsData|
        invariant |grid| == i
        invariant forall j :: 0 <= j < i ==> grid[j] == CardFor(ProjectsData[j])
      {
        grid := grid + [CardFor(ProjectsData[i])];
        i := i + 1;
      }
    }

    /**
     * `openWindow(id)`: hide every floating window, show the first one with
     * that id if there is one, and rebuild the gallery when it is the projects
     * window.
     */
    method OpenWindow(id: string)
      requires Valid()
      modifies this, display
      ensures display[..] == OpenedDisplays(ids, id)
      ensures grid == if id in ids && id == ProjectsWindowId && hasGrid then Cards(ProjectsData) else old(grid)
    {
      var i := 0;
      while i < display.Length
        invariant 0 <= i <= display.Length
        invariant forall j :: 0 <= j < i ==> display[j] == Hidden
        invariant grid == old(grid)
      {
        display[i] := Hidden;
        i := i + 1;
      }
      var windowToOpen := FirstIndexOf(ids, id);
      if windowToOpen.Some? {
        display[windowToOpen.value] := Shown;
        if id == ProjectsWindowId {
          GenerateProjectCards();
        }
      }
    }

    /** A close button inside window `k` hides that window and no other. */
    method CloseButtonClicked(k: nat)
      requires Valid() && k < display.Length
      modifies display
      ensures display[k] == Hidden
      ensures forall j :: 0 <= j < display.Length && j != k ==> display[j] == old(display[j])
    {
      display[k] := Hidden;
    }

    /**
     * The page-load handler's last step: rebuild the gallery if the projects
     * window exists and is not computed as hidden, the stylesheet's display
     * standing in for an unset inline one.
     */
    method OnContentLoaded(stylesheetDisplay: Display)
      requires Valid() && stylesheetDisplay != Unset
      modifies this
      ensures var w := FirstIndexOf(ids, ProjectsWindowId);
        grid == if w.Some? && ComputedDisplay(display[w.value], stylesheetDisplay) != Hidden && hasGrid
                then Cards(ProjectsData) else old(grid)
    {
      var projectsWindow := FirstIndexOf(ids, ProjectsWindowId);
      if projectsWindow.Some? && ComputedDisplay(display[projectsWindow.value], stylesheetDisplay) != Hidden {
        GenerateProjectCards();
      }
    }
  }
}
