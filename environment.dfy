/** The viewport controller: the canvas component's state (fetched
    repositories, error text, pan offset, pan anchor, pan flag, zoom scale)
    and the event handlers that update it. React's `setState` calls are
    field assignments; the fetch is an outcome handed in by the caller. */
module DragDropEnvironment {
  import opened Geometry
  import opened Zoom
  import opened GridLayout

  /** What the repository request ended with: the list it returned, or a
      failure (bad status, transport error or unreadable body alike). */
  datatype FetchOutcome = Fetched(repos: seq<Repo>) | FetchFailed

  const FetchFailedMessage: string :=
    "Failed to fetch repositories. Please check the username and try again."

  /** Only the middle mouse button (button 1) starts a pan. */
  predicate StartsPan(button: int) {
    button == 1
  }

  /** The offset after one pan move: the pointer's displacement since the
      anchor, divided by the current scale, is added to the offset. */
  function PanStep(offset: Point, anchor: Point, pointer: Point, scale: real): (r: Point)
    requires scale != 0.0
    ensures Mul(Sub(r, offset), scale) == Sub(pointer, anchor)
  {
    Add(offset, Div(Sub(pointer, anchor), scale))
  }

  /** The offset after a run of pan moves to the given pointer positions,
      each move re-anchoring at the pointer it saw. */
  function PanPath(offset: Point, anchor: Point, pointers: seq<Point>, scale: real): Point
    requires scale != 0.0
    decreases |pointers|
  {
    if pointers == [] then offset
    else PanPath(PanStep(offset, anchor, pointers[0], scale), pointers[0], pointers[1..], scale)
  }

  /** Two pan moves at one scale add up to one move to the second pointer. */
  lemma PanStepsCompose(offset: Point, anchor: Point, mid: Point, pointer: Point, scale: real)
    requires scale != 0.0
    ensures PanStep(PanStep(offset, anchor, mid, scale), mid, pointer, scale)
         == PanStep(offset, anchor, pointer, scale)
  {
  }

  /** Pan moves telescope: however many moves a gesture is cut into, the
      offset only depends on the first anchor and the last pointer. */
  lemma {:induction false} PanTelescopes(offset: Point, anchor: Point, pointers: seq<Point>, scale: real)
    requires scale != 0.0 && pointers != []
    ensures PanPath(offset, anchor, pointers, scale) == PanStep(offset, anchor, pointers[|pointers| - 1], scale)
    decreases |pointers|
  {
    var first := PanStep(offset, anchor, pointers[0], scale);
    if |pointers| > 1 {
      var rest := pointers[1..];
      PanTelescopes(first, pointers[0], rest, scale);
      assert rest[|rest| - 1] == pointers[|pointers| - 1];
      PanStepsCompose(offset, anchor, pointers[0], pointers[|pointers| - 1], scale);
    }
  }

  /** The canvas point under the pointer stays the one that was under the
      anchor exactly when the scale is 1 or the pointer did not move: at
      other scales the content moves 1/scale times the pointer's distance. */
  lemma PanKeepsGrabPointIff(offset: Point, anchor: Point, pointer: Point, scale: real)
    requires scale != 0.0
    ensures ToCanvas(pointer, PanStep(offset, anchor, pointer, scale), scale) == ToCanvas(anchor, offset, scale)
        <==> (scale == 1.0 || pointer == anchor)
  {
    var moved := PanStep(offset, anchor, pointer, scale);
    var d := Sub(pointer, anchor);
    assert (pointer.x - moved.x) - (anchor.x - offset.x) == d.x * (1.0 - 1.0 / scale);
    assert (pointer.y - moved.y) - (anchor.y - offset.y) == d.y * (1.0 - 1.0 / scale);
    if scale == 1.0 || pointer == anchor {
      assert ToCanvas(pointer, moved, scale) == ToCanvas(anchor, offset, scale);
    } else {
      assert 1.0 - 1.0 / scale != 0.0;
      assert d.x * (1.0 - 1.0 / scale) != 0.0 || d.y * (1.0 - 1.0 / scale) != 0.0;
    }
  }

  /** At offset (0,0) and scale 2, a pan from (100,100) to (150,130)
      moves the offset to (25,15). */
  lemma PanExample()
    ensures PanStep(Origin, Point(100.0, 100.0), Point(150.0, 130.0), 2.0) == Point(25.0, 15.0)
  {
  }

  class Environment {
    var username: string
    var repos: seq<PlacedRepo>
    var error: string
    var canvasOffset: Point
    var isDraggingCanvas: bool
    var startDragPos: Point
    var scale: real

    /** The scale never leaves the zoom range. */
    ghost predicate Valid()
      reads this
    {
      InRange(scale)
    }

    constructor ()
      ensures Valid()
      ensures username == "" && repos == [] && error == ""
      ensures canvasOffset == Origin && !isDraggingCanvas && startDragPos == Origin
      ensures scale == 1.0
    {
      username, repos, error := "", [], "";
      canvasOffset, isDraggingCanvas, startDragPos := Origin, false, Origin;
      scale := 1.0;
    }

    /** The text field's change handler. */
    method SetUsername(name: string)
      modifies this`username
      ensures username == name
    {
      username := name;
    }

    /** The synchronous part of a submit: the old error is cleared before
        the request for `username` is sent. */
    method BeginSubmit()
      requires Valid()
      modifies this`error
      ensures Valid()
      ensures error == ""
    {
      error := "";
    }

    /** The part of a submit that runs once the request has settled. */
    method FinishSubmit(outcome: FetchOutcome)
      requires Valid()
      modifies this`repos, this`error
      ensures Valid()
      ensures outcome.Fetched? ==> repos == Layout(outcome.repos) && error == old(error)
      ensures outcome.FetchFailed? ==> repos == old(repos) && error == FetchFailedMessage
    {
      match outcome {
        case Fetched(fetched) =>
          repos := Layout(fetched);
        case FetchFailed =>
          error := FetchFailedMessage;
      }
    }

    /** A whole submit whose request settled with `outcome`: on success the
        laid-out list replaces the old one and no error shows; on failure
        the old list stays and the fixed message shows. */
    method HandleSubmit(outcome: FetchOutcome)
      requires Valid()
      modifies this`repos, this`error
      ensures Valid()
      ensures outcome.Fetched? ==> repos == Layout(outcome.repos) && error == ""
      ensures outcome.FetchFailed? ==> repos == old(repos) && error == FetchFailedMessage
      ensures error != "" <==> outcome.FetchFailed?
    {
      BeginSubmit();
      FinishSubmit(outcome);
    }

    /** Mouse-down on the canvas: the middle button starts a pan anchored at
        the pointer; any other button changes nothing. */
    method HandleCanvasMouseDown(button: int, pointer: Point)
      requires Valid()
      modifies this`isDraggingCanvas, this`startDragPos
      ensures Valid()
      ensures StartsPan(button) ==> isDraggingCanvas && startDragPos == pointer
      ensures !StartsPan(button) ==> isDraggingCanvas == old(isDraggingCanvas) && startDragPos == old(startDragPos)
    {
      if StartsPan(button) {
        isDraggingCanvas := true;
        startDragPos := pointer;
      }
    }

    /** Mouse move anywhere on the page: while panning, the offset takes the
        pan step and the anchor moves to the pointer; otherwise nothing. */
    method HandleMouseMove(pointer: Point)
      requires Valid()
      modifies this`canvasOffset, this`startDragPos
      ensures Valid()
      ensures isDraggingCanvas ==>
                canvasOffset == PanStep(old(canvasOffset), old(startDragPos), pointer, scale) && startDragPos == pointer
      ensures !isDraggingCanvas ==> canvasOffset == old(canvasOffset) && startDragPos == old(startDragPos)
    {
      if isDraggingCanvas {
        canvasOffset := PanStep(canvasOffset, startDragPos, pointer, scale);
        startDragPos := pointer;
      }
    }

    /** Mouse release anywhere on the page ends the pan, whatever button. */
    method HandleMouseUp()
      requires Valid()
      modifies this`isDraggingCanvas
      ensures Valid()
      ensures !isDraggingCanvas
    {
      isDraggingCanvas := false;
    }

    /** A zoom button press: only the scale changes; the offset, anchor and
        pan flag are left as they were. */
    method HandleZoom(zoomIn: bool)
      requires Valid()
      modifies this`scale
      ensures Valid()
      ensures scale == ZoomStep(old(scale), zoomIn)
      ensures canvasOffset == old(canvasOffset) && startDragPos == old(startDragPos)
      ensures isDraggingCanvas == old(isDraggingCanvas)
    {
      scale := ZoomStep(scale, zoomIn);
    }
  }
}
