/** The player's craft (`Ufo`): steering by the held arrow keys, then clamping
    the sprite box into the play field. */
module Player {
  import opened Geometry

  /** The arrow keys held down when the frame is simulated. */
  datatype Held = Held(left: bool, right: bool, up: bool, down: bool)

  /** The craft's speed in pixels per second. */
  const Speed: real := 200.0

  /** Direction of motion on one axis: +1, -1, or 0 when both or neither key is held. */
  function Axis(minus: bool, plus: bool): int {
    (if plus then 1 else 0) - (if minus then 1 else 0)
  }

  /** The four key tests of `Ufo::update`, applied one after the other. */
  function Steer(p: Vec, held: Held, speed: real, dt: real): (r: Vec)
    ensures r.x == p.x + Axis(held.left, held.right) as real * (speed * dt)
    ensures r.y == p.y + Axis(held.up, held.down) as real * (speed * dt)
  {
    var step := speed * dt;
    var x1 := if held.left then p.x - step else p.x;
    var x2 := if held.right then x1 + step else x1;
    var y1 := if held.up then p.y - step else p.y;
    var y2 := if held.down then y1 + step else y1;
    Vec(x2, y2)
  }

  /** The sprite box of size `size` at `p` lies inside `field`. */
  predicate InField(p: Vec, size: Size, field: Rect) {
    && field.left <= p.x <= field.left + field.width - size.w
    && field.top <= p.y <= field.top + field.height - size.h
  }

  /** Two sequential clamps on one axis: first the low edge, then the high edge. */
  function ClampAxis(v: real, extent: real, low: real, span: real): real {
    var v1 := if v < low then low else v;
    if v1 + extent > low + span then low + span - extent else v1
  }

  /** The four clamps of `Ufo::update`. When the sprite is wider (taller) than the
      field, the second clamp wins and the box sticks out past the low edge. */
  function Clamp(p: Vec, size: Size, field: Rect): (r: Vec)
    ensures size.w <= field.width ==> r.x == Max(field.left, Min(p.x, field.left + field.width - size.w))
    ensures size.h <= field.height ==> r.y == Max(field.top, Min(p.y, field.top + field.height - size.h))
    ensures size.w > field.width ==> r.x == field.left + field.width - size.w
    ensures size.h > field.height ==> r.y == field.top + field.height - size.h
    ensures InField(p, size, field) ==> r == p
  {
    Vec(ClampAxis(p.x, size.w, field.left, field.width),
        ClampAxis(p.y, size.h, field.top, field.height))
  }

  /** `Ufo::update`: steer at the craft's speed, then clamp into the field. */
  function Update(p: Vec, held: Held, dt: real, size: Size, field: Rect): (r: Vec)
    ensures size.w <= field.width && size.h <= field.height ==> InField(r, size, field)
    ensures InField(Steer(p, held, Speed, dt), size, field) ==> r == Steer(p, held, Speed, dt)
  {
    Clamp(Steer(p, held, Speed, dt), size, field)
  }

  /** Clamping twice is clamping once, whether or not the sprite fits. */
  lemma ClampIdempotent(p: Vec, size: Size, field: Rect)
    ensures Clamp(Clamp(p, size, field), size, field) == Clamp(p, size, field)
  {
  }
}
