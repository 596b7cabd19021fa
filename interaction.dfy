/** How page events reach the two controllers. A mouse-down on a card is
    seen first by the card and then, unless the card stopped it, by the
    canvas it sits in; moves and releases are heard by every controller
    that has an active gesture (its page-level listeners exist only then,
    and each handler also checks its own flag). The card is given the
    canvas's current scale, as the canvas passes it down. */
module Interaction {
  import opened Geometry
  import opened GridLayout
  import opened DragDropEnvironment
  import opened RepoCard

  /** A mouse-down on a card: exactly one of "the card starts a drag" and
      "the canvas starts a pan" happens, decided by the button alone. */
  method PressOnCard(env: Environment, card: Card, button: int, pointer: Point, rectTopLeft: Point)
    requires env.Valid()
    modifies env`isDraggingCanvas, env`startDragPos, card`dragOffset, card`isDragging
    ensures env.Valid()
    ensures StartsDrag(button) != StartsPan(button)
    ensures StartsDrag(button) ==>
              card.isDragging && card.dragOffset == DragOffsetAt(pointer, rectTopLeft, env.scale)
              && env.isDraggingCanvas == old(env.isDraggingCanvas) && env.startDragPos == old(env.startDragPos)
    ensures StartsPan(button) ==>
              env.isDraggingCanvas && env.startDragPos == pointer
              && card.isDragging == old(card.isDragging) && card.dragOffset == old(card.dragOffset)
    ensures card.position == old(card.position) && env.canvasOffset == old(env.canvasOffset)
  {
    var consumed := card.HandleMouseDown(button, pointer, rectTopLeft, env.scale);
    if !consumed {
      env.HandleCanvasMouseDown(button, pointer);
    }
  }

  /** A mouse move on the page, delivered to the canvas and to the card. */
  method DocumentMouseMove(env: Environment, card: Card, pointer: Point)
    requires env.Valid()
    modifies env`canvasOffset, env`startDragPos, card`position
    ensures env.Valid()
    ensures env.isDraggingCanvas ==>
              env.canvasOffset == PanStep(old(env.canvasOffset), old(env.startDragPos), pointer, env.scale)
    ensures env.isDraggingCanvas ==> env.startDragPos == pointer
    ensures !env.isDraggingCanvas ==> env.canvasOffset == old(env.canvasOffset)
    ensures !env.isDraggingCanvas ==> env.startDragPos == old(env.startDragPos)
    ensures card.isDragging ==> card.position == DragPosition(pointer, card.dragOffset, env.scale)
    ensures !card.isDragging ==> card.position == old(card.position)
  {
    env.HandleMouseMove(pointer);
    card.HandleMouseMove(pointer, env.scale);
  }

  /** Two page moves during a pan leave the offset where a single move to
      the second pointer would, and the anchor at that pointer. */
  method TwoPageMoves(env: Environment, card: Card, p1: Point, p2: Point)
    requires env.Valid() && env.isDraggingCanvas
    modifies env`canvasOffset, env`startDragPos, card`position
    ensures env.Valid()
    ensures env.canvasOffset == PanStep(old(env.canvasOffset), old(env.startDragPos), p2, env.scale)
    ensures env.startDragPos == p2
  {
    DocumentMouseMove(env, card, p1);
    DocumentMouseMove(env, card, p2);
    PanStepsCompose(old(env.canvasOffset), old(env.startDragPos), p1, p2, env.scale);
  }

  /** A mouse release on the page ends both gestures. */
  method DocumentMouseUp(env: Environment, card: Card)
    requires env.Valid()
    modifies env`isDraggingCanvas, card`isDragging
    ensures env.Valid()
    ensures !env.isDraggingCanvas && !card.isDragging
    ensures env.canvasOffset == old(env.canvasOffset) && card.position == old(card.position)
  {
    env.HandleMouseUp();
    card.HandleMouseUp();
  }

  /** A whole gesture on a card that starts with both controllers idle:
      press with `button` at `down`, move to `to`, release. A non-middle
      button drags the card to the box corner plus the pointer's travel
      over the scale and leaves the canvas where it was; the middle button
      pans the canvas by that travel and leaves the card where it was. */
  method GestureOnCard(env: Environment, card: Card, button: int, down: Point, rectTopLeft: Point, to: Point)
    requires env.Valid() && !env.isDraggingCanvas && !card.isDragging
    modifies env`isDraggingCanvas, env`startDragPos, env`canvasOffset
    modifies card`dragOffset, card`isDragging, card`position
    ensures env.Valid() && env.scale == old(env.scale)
    ensures !env.isDraggingCanvas && !card.isDragging
    ensures StartsDrag(button) ==>
              card.position == Add(rectTopLeft, Div(Sub(to, down), env.scale))
              && env.canvasOffset == old(env.canvasOffset)
    ensures StartsPan(button) ==>
              env.canvasOffset == PanStep(old(env.canvasOffset), down, to, env.scale)
              && card.position == old(card.position)
  {
    PressOnCard(env, card, button, down, rectTopLeft);
    DocumentMouseMove(env, card, to);
    DocumentMouseUp(env, card);
    if StartsDrag(button) {
      PressThenMove(rectTopLeft, down, to, env.scale);
    }
  }

  /** A card at (50,50) on an unpanned canvas at scale 1, pressed with the
      left button at (60,70) and dragged to (200,250), ends at (190,230),
      and the canvas does not pan along. */
  method CardDragScenario() returns (position: Point, offset: Point)
    ensures position == Point(190.0, 230.0)
    ensures offset == Origin
  {
    var env := new Environment();
    var card := new Card(Repo(1, "demo", "", 0, ""), Point(50.0, 50.0));
    GestureOnCard(env, card, 0, Point(60.0, 70.0), Point(50.0, 50.0), Point(200.0, 250.0));
    position, offset := card.position, env.canvasOffset;
  }

  /** A middle-button press on a card pans the canvas and leaves the card
      where it was: a move from (100,100) to (150,130) at scale 1 shifts
      the offset by (50,30). */
  method PanOverCardScenario() returns (position: Point, offset: Point)
    ensures position == Point(50.0, 50.0)
    ensures offset == Point(50.0, 30.0)
  {
    var env := new Environment();
    var card := new Card(Repo(1, "demo", "", 0, ""), Point(50.0, 50.0));
    GestureOnCard(env, card, 1, Point(100.0, 100.0), Point(50.0, 50.0), Point(150.0, 130.0));
    position, offset := card.position, env.canvasOffset;
  }

  /** The exclusion is per press, not per gesture: a left press that starts
      a card drag, followed by a middle press on the same card before the
      release, leaves both the card drag and the canvas pan active. */
  method ChordedPressScenario() returns (panning: bool, dragging: bool)
    ensures panning && dragging
  {
    var env := new Environment();
    var card := new Card(Repo(1, "demo", "", 0, ""), Point(50.0, 50.0));
    PressOnCard(env, card, 0, Point(60.0, 70.0), Point(50.0, 50.0));
    PressOnCard(env, card, 1, Point(60.0, 70.0), Point(50.0, 50.0));
    panning, dragging := env.isDraggingCanvas, card.isDragging;
  }

  /** A failed submit shows the message and no cards; a later successful
      submit of seven records clears the message and lays them out. */
  method SubmitScenario(fetched: seq<Repo>) returns (failedError: string, failedCount: nat, error: string, count: nat)
    requires |fetched| == 7
    ensures failedError != "" && failedCount == 0
    ensures error == "" && count == 7
  {
    var env := new Environment();
    env.SetUsername("octocat");
    env.HandleSubmit(FetchFailed);
    failedError, failedCount := env.error, |env.repos|;
    env.HandleSubmit(Fetched(fetched));
    error, count := env.error, |env.repos|;
  }
}
