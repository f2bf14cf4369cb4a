/**
 * The draggable mini player (`useDraggable`): a position kept inside the viewport, a drag that
 * remembers where inside the player it was grabbed, and a saved slot the position is written to
 * when a drag ends. Viewport sizes are inputs; the saved slot stands for the browser's storage key.
 */
module Draggable {
  import opened Wrappers

  datatype Position = Position(x: real, y: real)

  const DefaultInitialX: real := 1041.0
  const DefaultInitialY: real := 525.0
  const DefaultPlayerWidth: real := 360.0
  const DefaultPlayerHeight: real := 200.0

  /** An option the caller left out takes its default. */
  function OrDefault(v: Option<real>, default: real): (r: real)
    ensures v.None? ==> r == default
    ensures v.Some? ==> r == v.value
  {
    if v.Some? then v.value else default
  }

  /**
   * `Math.max(0, Math.min(x, viewport - player))`: never negative, never past the last spot
   * where the player still fits, and 0 when it does not fit at all.
   */
  function Clamp(x: real, viewport: real, player: real): (r: real)
    ensures r >= 0.0
    ensures viewport - player >= 0.0 ==> r <= viewport - player
    ensures viewport < player ==> r == 0.0
    ensures 0.0 <= x <= viewport - player ==> r == x
    ensures r == x || r == 0.0 || r == viewport - player
  {
    Max0(MinReal(x, viewport - player))
  }

  /** Both coordinates clamped against their own viewport and player extent. */
  function ClampPosition(p: Position, viewportWidth: real, viewportHeight: real, width: real, height: real): (r: Position)
    ensures r.x == Clamp(p.x, viewportWidth, width) && r.y == Clamp(p.y, viewportHeight, height)
  {
    Position(Clamp(p.x, viewportWidth, width), Clamp(p.y, viewportHeight, height))
  }

  /** A position is in bounds when the whole player is inside the viewport at it (or at 0 if it cannot be). */
  predicate InBounds(p: Position, viewportWidth: real, viewportHeight: real, width: real, height: real) {
    ClampPosition(p, viewportWidth, viewportHeight, width, height) == p
  }

  /** Clamping twice is clamping once. */
  lemma ClampIdempotent(x: real, viewport: real, player: real)
    ensures Clamp(Clamp(x, viewport, player), viewport, player) == Clamp(x, viewport, player)
  {
  }

  /** Every clamped position is in bounds, so a clamp never needs repeating. */
  lemma ClampedIsInBounds(p: Position, viewportWidth: real, viewportHeight: real, width: real, height: real)
    ensures InBounds(ClampPosition(p, viewportWidth, viewportHeight, width, height), viewportWidth, viewportHeight, width, height)
  {
    ClampIdempotent(p.x, viewportWidth, width);
    ClampIdempotent(p.y, viewportHeight, height);
  }

  /** In bounds means: inside [0, viewport - player] on each axis, or at 0 where the player does not fit. */
  lemma InBoundsMeans(p: Position, viewportWidth: real, viewportHeight: real, width: real, height: real)
    ensures InBounds(p, viewportWidth, viewportHeight, width, height) <==>
      && (0.0 <= p.x <= viewportWidth - width || (viewportWidth < width && p.x == 0.0))
      && (0.0 <= p.y <= viewportHeight - height || (viewportHeight < height && p.y == 0.0))
  {
  }

  /** Where a move to `client` puts the player, given the grab offset recorded at mouse-down. */
  function DragTarget(client: Position, grab: Position, viewportWidth: real, viewportHeight: real, width: real, height: real): Position {
    ClampPosition(Position(client.x - grab.x, client.y - grab.y), viewportWidth, viewportHeight, width, height)
  }

  /** Moving the mouse back to where it was pressed leaves an in-bounds position where it was. */
  lemma PressPointKeepsPosition(p: Position, client: Position, viewportWidth: real, viewportHeight: real, width: real, height: real)
    requires InBounds(p, viewportWidth, viewportHeight, width, height)
    ensures DragTarget(client, Position(client.x - p.x, client.y - p.y), viewportWidth, viewportHeight, width, height) == p
  {
    assert Position(client.x - (client.x - p.x), client.y - (client.y - p.y)) == p;
  }

  /** A move by (dx, dy) inside the viewport shifts the player by exactly that much. */
  lemma DragFollowsMouse(p: Position, client: Position, dx: real, dy: real,
                         viewportWidth: real, viewportHeight: real, width: real, height: real)
    requires 0.0 <= p.x + dx <= viewportWidth - width && 0.0 <= p.y + dy <= viewportHeight - height
    ensures DragTarget(Position(client.x + dx, client.y + dy), Position(client.x - p.x, client.y - p.y),
                       viewportWidth, viewportHeight, width, height) == Position(p.x + dx, p.y + dy)
  {
  }

  class DraggablePlayer {
    const initialX: real
    const initialY: real
    const playerWidth: real
    const playerHeight: real
    var position: Position
    var isDragging: bool
    /** Where inside the player the drag started: client point minus position at mouse-down. */
    var dragStart: Position
    /** The saved position slot. */
    var saved: Option<Position>

    /** The hook with its options (each may be left out) and whatever the slot already holds. */
    constructor (initialX: Option<real>, initialY: Option<real>, playerWidth: Option<real>, playerHeight: Option<real>,
                 saved: Option<Position>)
      ensures this.initialX == OrDefault(initialX, DefaultInitialX) && this.initialY == OrDefault(initialY, DefaultInitialY)
      ensures this.playerWidth == OrDefault(playerWidth, DefaultPlayerWidth)
      ensures this.playerHeight == OrDefault(playerHeight, DefaultPlayerHeight)
      ensures position == Position(0.0, 0.0) && !isDragging && dragStart == Position(0.0, 0.0)
      ensures this.saved == saved
    {
      this.initialX := OrDefault(initialX, DefaultInitialX);
      this.initialY := OrDefault(initialY, DefaultInitialY);
      this.playerWidth := OrDefault(playerWidth, DefaultPlayerWidth);
      this.playerHeight := OrDefault(playerHeight, DefaultPlayerHeight);
      position := Position(0.0, 0.0);
      isDragging := false;
      dragStart := Position(0.0, 0.0);
      this.saved := saved;
    }

    /** On mount and on every resize: the configured start, clamped to the viewport. */
    method SetInitialPosition(viewportWidth: real, viewportHeight: real)
      modifies this
      ensures position == ClampPosition(Position(initialX, initialY), viewportWidth, viewportHeight, playerWidth, playerHeight)
      ensures InBounds(position, viewportWidth, viewportHeight, playerWidth, playerHeight)
      ensures isDragging == old(isDragging) && dragStart == old(dragStart) && saved == old(saved)
    {
      var posX := initialX;
      var posY := initialY;
      posX := Max0(MinReal(posX, viewportWidth - playerWidth));
      posY := Max0(MinReal(posY, viewportHeight - playerHeight));
      position := Position(posX, posY);
      ClampedIsInBounds(Position(initialX, initialY), viewportWidth, viewportHeight, playerWidth, playerHeight);
    }

    /** On mount: a saved position, clamped to the current viewport, replaces the current one. */
    method LoadSavedPosition(viewportWidth: real, viewportHeight: real)
      modifies this
      ensures saved.Some? ==> position == ClampPosition(saved.value, viewportWidth, viewportHeight, playerWidth, playerHeight)
      ensures saved.None? ==> position == old(position)
      ensures isDragging == old(isDragging) && dragStart == old(dragStart) && saved == old(saved)
    {
      if saved.Some? {
        var constrainedX := Max0(MinReal(saved.value.x, viewportWidth - playerWidth));
        var constrainedY := Max0(MinReal(saved.value.y, viewportHeight - playerHeight));
        position := Position(constrainedX, constrainedY);
      }
    }

    /** `handleMouseDown`: a drag starts, remembering the grab point relative to the player. */
    method MouseDown(client: Position)
      modifies this
      ensures isDragging
      ensures dragStart == Position(client.x - old(position).x, client.y - old(position).y)
      ensures position == old(position) && saved == old(saved)
    {
      isDragging := true;
      dragStart := Position(client.x - position.x, client.y - position.y);
    }

    /** A document mouse-move: only while dragging, the player follows the grab point, clamped. */
    method MouseMove(client: Position, viewportWidth: real, viewportHeight: real)
      modifies this
      ensures old(isDragging) ==>
        position == DragTarget(client, dragStart, viewportWidth, viewportHeight, playerWidth, playerHeight)
      ensures old(isDragging) ==> InBounds(position, viewportWidth, viewportHeight, playerWidth, playerHeight)
      ensures !old(isDragging) ==> position == old(position)
      ensures isDragging == old(isDragging) && dragStart == old(dragStart) && saved == old(saved)
    {
      if !isDragging {
        return;
      }
      var newX := client.x - dragStart.x;
      var newY := client.y - dragStart.y;
      var maxX := viewportWidth - playerWidth;
      var maxY := viewportHeight - playerHeight;
      position := Position(Max0(MinReal(newX, maxX)), Max0(MinReal(newY, maxY)));
      ClampedIsInBounds(Position(newX, newY), viewportWidth, viewportHeight, playerWidth, playerHeight);
    }

    /** A document mouse-up: only while dragging, the drag ends and the current position is saved. */
    method MouseUp()
      modifies this
      ensures old(isDragging) ==> !isDragging && saved == Some(position)
      ensures !old(isDragging) ==> saved == old(saved) && isDragging == old(isDragging)
      ensures position == old(position) && dragStart == old(dragStart)
    {
      if !isDragging {
        return;
      }
      isDragging := false;
      saved := Some(position);
    }
  }

  /** `Math.min` on reals. */
  function MinReal(a: real, b: real): real {
    if a <= b then a else b
  }

  /** `Math.max(0, v)`; together with `MinReal` it is `Clamp`. */
  function Max0(v: real): (r: real)
    ensures r >= 0.0
  {
    if v >= 0.0 then v else 0.0
  }

  /** A press, a move back to the press point and a release save an in-bounds position unchanged. */
  method ClickWithoutMoving(d: DraggablePlayer, client: Position, viewportWidth: real, viewportHeight: real)
    requires InBounds(d.position, viewportWidth, viewportHeight, d.playerWidth, d.playerHeight)
    modifies d
    ensures d.position == old(d.position) && d.saved == Some(old(d.position)) && !d.isDragging
  {
    var p := d.position;
    d.MouseDown(client);
    PressPointKeepsPosition(p, client, viewportWidth, viewportHeight, d.playerWidth, d.playerHeight);
    d.MouseMove(client, viewportWidth, viewportHeight);
    d.MouseUp();
  }
}
