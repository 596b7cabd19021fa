# Repository canvas: viewport and card drag, in Dafny

This project models the interaction core of a small React canvas. The canvas shows a
GitHub user's repositories as cards. The user pans the canvas with the middle mouse
button, zooms it with two buttons, and drags single cards with any other button. The
canvas component (`DragDropEnvironment`) holds the fetched list, an error string, the
pan offset, the pan anchor, the pan flag and the zoom scale. Each card (`RepoCard`)
holds its own position, drag flag and drag offset. JavaScript numbers are modelled as
Dafny `real`. React `setState` calls are field assignments. The request for a user's
repositories is given to the model as its outcome.

Modules:

- `Geometry`: points, and the canvas's forward transform `offset + point * scale` and its inverse.
- `Zoom`: the zoom step (times or divided by 1.1, clamped to [0.1, 5]) and repeated zooming.
- `GridLayout`: repository records and the 5-column initial grid.
- `DragDropEnvironment`: the pan formulas and the class `Environment` with the canvas component's state and handlers.
- `RepoCard`: the card drag formulas and the class `Card` with one card's state and handlers.
- `Interaction`: how a mouse-down on a card reaches the card and then, unless stopped, the canvas; page-wide moves and releases; worked scenarios.

The formulas are kept exactly as the code writes them, and the lemmas state what they imply:

- Zoom does not change the offset, so it zooms about the canvas origin.
- The card records `pointer - rect.topLeft * scale`, with the screen-space box corner multiplied by the scale once more. `DragKeepsGrabIff` proves the consequence. A card keeps the grabbed point under the pointer exactly when its screen corner equals its stored position. Otherwise it jumps on the first move. That holds, for example, at offset (0,0) and scale 1.
- A pan adds the pointer's travel divided by the scale to an offset that the canvas applies before scaling. `PanKeepsGrabPointIff` proves the consequence. The canvas point under the pointer stays put exactly when the scale is 1 or the pointer did not move.
- Mutual exclusion of card drag and canvas pan holds per press (`PressOnCard`). It does not hold per gesture. A middle press on a card whose left-button drag is still running also starts a pan (`ChordedPressScenario`).

Further behaviour of the code that the model states:

- A card drag starts on every button except the middle one (`StartsDrag`), so the right button starts one too.
- n zoom-ins followed by n zoom-outs restore the scale when no zoom-in clamps (`ZoomRoundTrip`); from scale 5 they do not (`ClampedRoundTripDrifts`).
- `PanExample` states a pan at scale 2 on the formula alone, because the class never reaches scale 2 from scale 1: it starts at 1 and changes only by factors of 1.1 or to a clamp bound.

## Model

| member | source | states |
|---|---|---|
| Geometry.ToScreen | components/DragDropEnvironment.tsx:119-120 | a canvas point is drawn at offset + point * scale, so the point is recovered from where it is drawn whenever the scale is non-zero |
| Geometry.ToCanvas | components/DragDropEnvironment.tsx:119-120 | the canvas point under a screen point, scaled and shifted by the offset, gives back that screen point |
| Geometry.ToCanvasInvertsToScreen | components/DragDropEnvironment.tsx:119-120 | mapping a canvas point to the screen and back returns the same point |
| Geometry.ToScreenInvertsToCanvas | components/DragDropEnvironment.tsx:119-120 | mapping a screen point to the canvas and back returns the same point |
| Zoom.Clamp | components/DragDropEnvironment.tsx:75 | the result lies in [0.1, 5]; a value inside the range is kept; below it gives 0.1; above it gives 5 |
| Zoom.ZoomStep | components/DragDropEnvironment.tsx:72-77 | every zoom press, from any scale, yields a scale in [0.1, 5]; when the product or quotient is in range it is exactly scale times or divided by 1.1 |
| Zoom.ZoomOutAtMinimumStays | components/DragDropEnvironment.tsx:74-75 | zoom out at 0.1 stays at 0.1 |
| Zoom.ZoomInAtMaximumStays | components/DragDropEnvironment.tsx:74-75 | zoom in at 5 stays at 5 |
| Zoom.ZoomIsMonotone | components/DragDropEnvironment.tsx:74-75 | from any scale in range, zoom in never lowers the scale and zoom out never raises it |
| Zoom.ZoomInThenOutRestores | components/DragDropEnvironment.tsx:74-75 | a zoom in that did not clamp is undone exactly by one zoom out |
| Zoom.ZoomOutThenInRestores | components/DragDropEnvironment.tsx:74-75 | a zoom out that did not clamp is undone exactly by one zoom in |
| Zoom.ZoomInRepeatMultiplies | components/DragDropEnvironment.tsx:72-77 | n zoom-ins that stay at or below 5 multiply the scale by 1.1^n |
| Zoom.ZoomOutRepeatDivides | components/DragDropEnvironment.tsx:72-77 | n zoom-outs that stay at or above 0.1 divide the scale by 1.1^n |
| Zoom.ZoomRoundTrip | components/DragDropEnvironment.tsx:72-77 | n zoom-ins followed by n zoom-outs restore the scale when the zoom-ins never clamp |
| Zoom.ClampedRoundTripDrifts | components/DragDropEnvironment.tsx:72-77 | from scale 5 one zoom in and one zoom out end at 5/1.1, not at 5 |
| GridLayout.GridX | components/DragDropEnvironment.tsx:27 | a card's starting x is one of 50, 350, 650, 950, 1250 |
| GridLayout.GridY | components/DragDropEnvironment.tsx:28 | a card's starting y is at least 50, and equals 50 exactly for the first five indices |
| GridLayout.Layout | components/DragDropEnvironment.tsx:24-30 | layout keeps the list's length, order and every record's own fields, and gives record i grid cell i |
| GridLayout.GridIndexInverts | components/DragDropEnvironment.tsx:27-28 | the index can be recovered from its grid coordinates |
| GridLayout.GridPositionInjective | components/DragDropEnvironment.tsx:26-29 | distinct indices get distinct grid positions |
| GridLayout.LayoutPositionsDistinct | components/DragDropEnvironment.tsx:24-31 | no two laid-out records share a starting position |
| GridLayout.SevenReposExample | components/DragDropEnvironment.tsx:24-30 | seven records fill row y=50 at x=50..1250 and then row y=250 at x=50 and 350 |
| DragDropEnvironment.PanStep | components/DragDropEnvironment.tsx:40-43 | the offset's change, multiplied by the scale, equals the pointer's travel since the anchor |
| DragDropEnvironment.PanStepsCompose | components/DragDropEnvironment.tsx:40-44 | two pan moves at one scale equal one move from the first anchor to the last pointer |
| DragDropEnvironment.PanTelescopes | components/DragDropEnvironment.tsx:38-46 | any run of pan moves, each re-anchoring, gives the offset of a single move to the last pointer |
| DragDropEnvironment.PanKeepsGrabPointIff | components/DragDropEnvironment.tsx:40-43 | after a pan move the canvas point under the pointer is the one under the anchor before it, if and only if scale is 1 or the pointer did not move |
| DragDropEnvironment.PanExample | components/DragDropEnvironment.tsx:40-43 | from offset (0,0) at scale 2, a move from (100,100) to (150,130) gives offset (25,15) |
| DragDropEnvironment.Environment.constructor | components/DragDropEnvironment.tsx:10-16 | empty username, no repositories, no error, offset and anchor (0,0), not panning, scale 1 |
| DragDropEnvironment.Environment.SetUsername | components/DragDropEnvironment.tsx:86 | the text field sets the username |
| DragDropEnvironment.Environment.BeginSubmit | components/DragDropEnvironment.tsx:19-21 | the error is cleared before the request is sent |
| DragDropEnvironment.Environment.FinishSubmit | components/DragDropEnvironment.tsx:22-34 | on success the list becomes the laid-out fetch and the error is untouched; on failure the list is untouched and the error is the fixed message |
| DragDropEnvironment.Environment.HandleSubmit | components/DragDropEnvironment.tsx:19-35 | after a submit the error is non-empty exactly when the fetch failed; success replaces the list by its layout, failure keeps the old list |
| DragDropEnvironment.Environment.HandleCanvasMouseDown | components/DragDropEnvironment.tsx:63-70 | only button 1 starts a pan, anchored at the pointer; other buttons change nothing |
| DragDropEnvironment.Environment.HandleMouseMove | components/DragDropEnvironment.tsx:38-46 | while panning the offset takes the pan step and the anchor moves to the pointer; otherwise nothing changes |
| DragDropEnvironment.Environment.HandleMouseUp | components/DragDropEnvironment.tsx:48-50 | release ends the pan; only the pan flag may change, so offset and scale stay |
| DragDropEnvironment.Environment.HandleZoom | components/DragDropEnvironment.tsx:72-77 | the scale takes one zoom step and stays in [0.1, 5]; offset, anchor and pan flag are unchanged |
| RepoCard.DragOffsetAt | components/RepoCard.tsx:51-54 | the recorded offset plus the box corner times the scale is the pointer |
| RepoCard.DragPosition | components/RepoCard.tsx:25-28 | the new position times the scale, plus the drag offset, is the pointer |
| RepoCard.DragPathIsLastMove | components/RepoCard.tsx:23-30 | after any run of drag moves the position depends only on the last pointer, so repeated or missed moves do not matter |
| RepoCard.DragFollowsPointer | components/RepoCard.tsx:25-28 | between two moves of one drag the card travels the pointer's travel divided by the scale |
| RepoCard.PressThenMove | components/RepoCard.tsx:47-58 | after a press at p1 on a box with corner c, a move to p2 puts the card at c plus (p2 - p1)/scale |
| RepoCard.DragKeepsGrabIff | components/RepoCard.tsx:51-54 | with the box where the canvas draws the card, the card follows the pointer without a jump if and only if its screen corner equals its stored position |
| RepoCard.DragExample | components/RepoCard.tsx:25-28 | at scale 1, box (50,50), a press at (60,70) gives offset (10,20), and a move to (200,250) gives position (190,230) |
| RepoCard.Card.constructor | components/RepoCard.tsx:17-19 | a card starts at its initial position, not dragging, with drag offset (0,0) |
| RepoCard.Card.HandleMouseDown | components/RepoCard.tsx:47-58 | a non-middle button records the drag offset, starts the drag and stops propagation; the middle button changes nothing; the position never changes |
| RepoCard.Card.HandleMouseMove | components/RepoCard.tsx:23-30 | while dragging the position is recomputed from the pointer; otherwise it stays |
| RepoCard.Card.HandleMouseUp | components/RepoCard.tsx:32-34 | release ends the drag and leaves position and drag offset |
| Interaction.PressOnCard | components/RepoCard.tsx:48-56 | for every button exactly one of "card drag starts" and "canvas pan starts" happens; the other controller is left unchanged |
| Interaction.DocumentMouseMove | components/RepoCard.tsx:23-30 | a page move pans the canvas and re-anchors it at the pointer if it is panning, and moves the card if it is dragging, each by its own formula; an idle controller keeps its state |
| Interaction.TwoPageMoves | components/DragDropEnvironment.tsx:38-46 | two page moves during a pan give the offset of one move from the first anchor to the second pointer, and re-anchor at that pointer |
| Interaction.DocumentMouseUp | components/RepoCard.tsx:32-34 | a page release ends both gestures and moves nothing |
| Interaction.GestureOnCard | components/RepoCard.tsx:47-58 | a press-move-release on an idle card either drags the card and leaves the offset, or pans the canvas and leaves the card |
| Interaction.CardDragScenario | components/RepoCard.tsx:23-58 | a left drag from (60,70) to (200,250) at scale 1 puts the card at (190,230) and leaves the offset at (0,0) |
| Interaction.PanOverCardScenario | components/DragDropEnvironment.tsx:38-70 | a middle drag over a card from (100,100) to (150,130) at scale 1 moves the offset to (50,30) and leaves the card at (50,50) |
| Interaction.ChordedPressScenario | components/RepoCard.tsx:47-58 | a left press then a middle press on the same card leave both the card drag and the canvas pan active |
| Interaction.SubmitScenario | components/DragDropEnvironment.tsx:19-35 | a failed submit shows a non-empty error and no cards; a later successful submit of seven records clears it and shows seven |

## Left out

- The repository request (`utils/github.ts`) is network I/O and JSON parsing. Its result is the `FetchOutcome` input of `HandleSubmit`. A bad status, a transport error and an unreadable body all become `FetchFailed`.
- Overlapping submits are not modelled. `HandleSubmit` lets one request settle before the next starts. `BeginSubmit` and `FinishSubmit` are separate steps for callers that need the pending state.
- The spring animation (react-motion) is an animation backend. The model uses the target values it animates towards.
- Attaching and removing the page-level listeners is React/DOM lifecycle. The model keeps its effect: each handler checks its own flag, so a move without an active gesture changes nothing.
- Rendering, CSS, the opacity and stacking of a dragged card, the card's `scale(1/scale)` transform and the icons are presentation only.
- `getBoundingClientRect` is a DOM call. Its top-left corner is a parameter of the card's mouse-down handler.
- The null check on the card's element ref is not modelled: the handler is attached to that element, so the ref is set whenever it runs.
- `preventDefault` and the form event change no modelled state.
- IEEE rounding is not modelled: numbers are exact reals. The card handlers require a non-zero scale. The canvas keeps its scale in [0.1, 5].
- React's batching and stale closures are not modelled: each handler sees the latest state. For the pan this makes no difference, because moves telescope (`PanTelescopes`). A handler with a stale offset and anchor writes the same offset as the chain of fresh ones.
- Card state is not kept across a later successful submit (React reuses card state by repository id). A card's state starts at the `Card` constructor.
- Repository records carry the five fields the cards display. The JSON's other fields travel with the record unchanged through the layout's `...repo` spread. `description` and `language` may be null in the JSON; they are modelled as strings.
- `Interaction` dispatches page events to one card. Every other card receives the same events and reacts by the same contracts.
