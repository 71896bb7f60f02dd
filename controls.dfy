// The keyboard side of the game: which keys are held, and the edge-triggered
// jump latch that the ArrowUp key drives.

module Controls {

  /** jumpPressed: a jump is requested and not yet performed.
      canJump: ArrowUp has been released since it last requested a jump. */
  datatype Latch = Latch(jumpPressed: bool, canJump: bool)

  datatype KeyEvent = KeyDown(key: string) | KeyUp(key: string)

  /** The latch part of the keydown handler: only a fresh ArrowUp press
      requests a jump, and it disarms the key until it is released. */
  function OnKeyDown(l: Latch, key: string): (r: Latch)
    ensures r.jumpPressed <==> l.jumpPressed || (key == "ArrowUp" && l.canJump)
    ensures r.canJump <==> l.canJump && key != "ArrowUp"
  {
    if key == "ArrowUp" && l.canJump then Latch(true, false) else l
  }

  /** The latch part of the keyup handler: releasing ArrowUp re-arms it; a
      pending request is never withdrawn. */
  function OnKeyUp(l: Latch, key: string): (r: Latch)
    ensures r.jumpPressed == l.jumpPressed
    ensures r.canJump <==> l.canJump || key == "ArrowUp"
  {
    if key == "ArrowUp" then l.(canJump := true) else l
  }

  function Apply(l: Latch, e: KeyEvent): Latch {
    match e
    case KeyDown(k) => OnKeyDown(l, k)
    case KeyUp(k) => OnKeyUp(l, k)
  }

  /** The event is an ArrowUp press that requests a jump. */
  predicate Requests(l: Latch, e: KeyEvent) {
    e.KeyDown? && e.key == "ArrowUp" && l.canJump
  }

  /** How many of the events request a jump, starting from latch l. */
  function RequestCount(l: Latch, events: seq<KeyEvent>): nat
    decreases events
  {
    if events == [] then 0
    else (if Requests(l, events[0]) then 1 else 0) + RequestCount(Apply(l, events[0]), events[1..])
  }

  /** How many of the events release ArrowUp. */
  function ReleaseCount(events: seq<KeyEvent>): nat {
    if events == [] then 0
    else (if events[0] == KeyUp("ArrowUp") then 1 else 0) + ReleaseCount(events[1..])
  }

  /** Edge triggering: however often the keyboard repeats ArrowUp while it is
      held, each release allows at most one further request. */
  lemma {:induction false} RequestsBoundedByReleases(l: Latch, events: seq<KeyEvent>)
    ensures RequestCount(l, events) <= (if l.canJump then 1 else 0) + ReleaseCount(events)
    decreases events
  {
    if events != [] {
      RequestsBoundedByReleases(Apply(l, events[0]), events[1..]);
    }
  }
}
