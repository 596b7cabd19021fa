/** The card drag controller: each card holds its own position, drag flag
    and the pointer-to-card offset recorded when the drag began. The zoom
    scale is a property the canvas passes down, so each handler takes it
    as a parameter; the card's on-screen bounding box, which the source
    reads from the page, is handed in as its top-left corner. */
module RepoCard {
  import opened Geometry
  import opened GridLayout

  /** Every button except the middle one (button 1) starts a card drag. */
  predicate StartsDrag(button: int) {
    button != 1
  }

  /** The offset recorded at mouse-down: the pointer minus the bounding
      box's top-left corner multiplied by the scale. */
  function DragOffsetAt(pointer: Point, rectTopLeft: Point, scale: real): (off: Point)
    ensures Add(off, Mul(rectTopLeft, scale)) == pointer
  {
    Sub(pointer, Mul(rectTopLeft, scale))
  }

  /** The position a drag move sets: recomputed from the pointer alone,
      not accumulated from earlier moves. */
  function DragPosition(pointer: Point, dragOffset: Point, scale: real): (pos: Point)
    requires scale != 0.0
    ensures Add(Mul(pos, scale), dragOffset) == pointer
  {
    Div(Sub(pointer, dragOffset), scale)
  }

  /** The position after a run of drag moves (an empty run leaves it). */
  function DragPath(position: Point, dragOffset: Point, pointers: seq<Point>, scale: real): Point
    requires scale != 0.0
    decreases |pointers|
  {
    if pointers == [] then position
    else DragPath(DragPosition(pointers[0], dragOffset, scale), dragOffset, pointers[1..], scale)
  }

  /** Only the last pointer of a drag matters: missed or repeated move
      events do not change where the card ends up. */
  lemma {:induction false} DragPathIsLastMove(position: Point, dragOffset: Point, pointers: seq<Point>, scale: real)
    requires scale != 0.0 && pointers != []
    ensures DragPath(position, dragOffset, pointers, scale) == DragPosition(pointers[|pointers| - 1], dragOffset, scale)
    decreases |pointers|
  {
    if |pointers| > 1 {
      var rest := pointers[1..];
      DragPathIsLastMove(DragPosition(pointers[0], dragOffset, scale), dragOffset, rest, scale);
      assert rest[|rest| - 1] == pointers[|pointers| - 1];
    }
  }

  /** Between two moves of one drag the card travels the pointer's
      displacement divided by the scale. */
  lemma DragFollowsPointer(dragOffset: Point, p1: Point, p2: Point, scale: real)
    requires scale != 0.0
    ensures Sub(DragPosition(p2, dragOffset, scale), DragPosition(p1, dragOffset, scale)) == Div(Sub(p2, p1), scale)
  {
  }

  /** After pressing at p1 on a box whose top-left is rectTopLeft, a move
      to p2 puts the card at the box's top-left plus the pointer's travel
      divided by the scale. */
  lemma PressThenMove(rectTopLeft: Point, p1: Point, p2: Point, scale: real)
    requires scale != 0.0
    ensures DragPosition(p2, DragOffsetAt(p1, rectTopLeft, scale), scale) == Add(rectTopLeft, Div(Sub(p2, p1), scale))
  {
  }

  /** When the box is where the canvas draws the card (offset + position *
      scale), the drag moves the card by exactly the pointer's travel over
      the scale if and only if that screen corner equals the stored
      position; otherwise the card jumps on its first move. */
  lemma DragKeepsGrabIff(position: Point, canvasOffset: Point, p1: Point, p2: Point, scale: real)
    requires scale != 0.0
    ensures DragPosition(p2, DragOffsetAt(p1, ToScreen(position, canvasOffset, scale), scale), scale)
         == Add(position, Div(Sub(p2, p1), scale))
        <==> ToScreen(position, canvasOffset, scale) == position
  {
  }

  /** Scale 1, box at (50,50), press at (60,70): offset (10,20); a move to
      (200,250) puts the card at (190,230). */
  lemma DragExample()
    ensures DragOffsetAt(Point(60.0, 70.0), Point(50.0, 50.0), 1.0) == Point(10.0, 20.0)
    ensures DragPosition(Point(200.0, 250.0), Point(10.0, 20.0), 1.0) == Point(190.0, 230.0)
  {
  }

  class Card {
    const repo: Repo
    var position: Point
    var isDragging: bool
    var dragOffset: Point

    /** A card starts where the layout put it, idle, with a zero offset. */
    constructor (repo: Repo, initialPosition: Point)
      ensures this.repo == repo
      ensures position == initialPosition && !isDragging && dragOffset == Origin
    {
      this.repo := repo;
      position := initialPosition;
      isDragging := false;
      dragOffset := Origin;
    }

    /** Mouse-down on the card. A non-middle button records the drag offset,
        starts the drag and stops the event from reaching the canvas
        (`consumed`); the middle button changes nothing and lets the event
        through. The position is never touched here. */
    method HandleMouseDown(button: int, pointer: Point, rectTopLeft: Point, scale: real) returns (consumed: bool)
      modifies this`dragOffset, this`isDragging
      ensures consumed == StartsDrag(button)
      ensures StartsDrag(button) ==> isDragging && dragOffset == DragOffsetAt(pointer, rectTopLeft, scale)
      ensures !StartsDrag(button) ==> isDragging == old(isDragging) && dragOffset == old(dragOffset)
      ensures position == old(position)
    {
      consumed := false;
      if StartsDrag(button) {
        dragOffset := DragOffsetAt(pointer, rectTopLeft, scale);
        isDragging := true;
        consumed := true;
      }
    }

    /** Mouse move anywhere on the page: while dragging, the position is
        recomputed from the pointer; otherwise nothing changes. */
    method HandleMouseMove(pointer: Point, scale: real)
      requires scale != 0.0
      modifies this`position
      ensures isDragging ==> position == DragPosition(pointer, dragOffset, scale)
      ensures !isDragging ==> position == old(position)
    {
      if isDragging {
        position := DragPosition(pointer, dragOffset, scale);
      }
    }

    /** Mouse release anywhere on the page ends the drag; the position and
        the recorded offset stay. */
    method HandleMouseUp()
      modifies this`isDragging
      ensures !isDragging
      ensures position == old(position) && dragOffset == old(dragOffset)
    {
      isDragging := false;
    }
  }
}
