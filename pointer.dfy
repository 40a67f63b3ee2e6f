/** Pointer events as the drawing handlers see them
    (src/hooks/useCanvas.js:62-75). */
module Pointer {
  import opened Optional
  import opened Shapes

  /** A pointer event: `buttons` is None when the event carries no numeric
      `buttons` field; `targetInCanvas` says whether the canvas contains the
      event's target. */
  datatype PointerEvent = PointerEvent(
    pointerType: string,
    buttons: Option<int>,
    button: int,
    clientX: real,
    clientY: real,
    targetInCanvas: bool)

  /** Whether an event comes from the primary pointer with its main button down.
      For an integral `buttons`, JavaScript's `(buttons & 1) === 1` tests the low
      bit of its 32-bit two's-complement value, which is `buttons % 2` with
      Dafny's Euclidean remainder, for negative values too. */
  predicate IsPrimary(e: Option<PointerEvent>)
    ensures IsPrimary(e) ==> e.Some?
  {
    match e
    case None => false
    case Some(ev) =>
      if ev.pointerType == "mouse" then
        match ev.buttons
        case Some(b) => b % 2 == 1
        case None => ev.button == 0
      else true
  }

  /** The buttons a `buttons` bitmask reports as held: bit i stands for button i. */
  function PressedButtons(buttons: nat): set<nat>
    decreases buttons
  {
    if buttons == 0 then {}
    else
      (if buttons % 2 == 1 then {0} else {}) + set i | i in PressedButtons(buttons / 2) :: i + 1
  }

  /** A mouse event with a numeric bitmask is primary exactly when the main
      button (button 0) is among the buttons it reports as held. */
  lemma MousePrimaryIffMainButtonHeld(e: PointerEvent, b: nat)
    requires e.pointerType == "mouse" && e.buttons == Some(b)
    ensures IsPrimary(Some(e)) <==> 0 in PressedButtons(b)
  {
    if b > 0 {
      var higher := set i | i in PressedButtons(b / 2) :: i + 1;
      assert 0 !in higher;
    }
  }

  /** A mouse event on the canvas with the main button in the state `buttons`. */
  function Mouse(x: real, y: real, buttons: int): PointerEvent {
    PointerEvent("mouse", Some(buttons), 0, x, y, true)
  }

  /** The event's position relative to the canvas's top-left corner `origin`. */
  function PointerPos(e: PointerEvent, origin: Point): (pos: Point)
    ensures pos.x + origin.x == e.clientX && pos.y + origin.y == e.clientY
  {
    Point(e.clientX - origin.x, e.clientY - origin.y)
  }
}
