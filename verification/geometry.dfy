/** Plane geometry of the play field: points, sprite sizes, axis-aligned boxes,
    and the two integer conversions the game applies to coordinates. */
module Geometry {

  /** A point in window coordinates (the game's two-component float vector). */
  datatype Vec = Vec(x: real, y: real)

  /** Width and height of a sprite's bounding box. */
  datatype Size = Size(w: real, h: real)

  /** An axis-aligned rectangle given by its top-left corner and its extent. */
  datatype Rect = Rect(left: real, top: real, width: real, height: real)

  function Min(a: real, b: real): real { if a <= b then a else b }

  function Max(a: real, b: real): real { if a <= b then b else a }

  function Abs(n: int): nat { if n < 0 then -n else n }

  /** Bounding box of a sprite of size `size` whose top-left corner is at `p`. */
  function BoxAt(p: Vec, size: Size): Rect { Rect(p.x, p.y, size.w, size.h) }

  /** The overlap test between two boxes: their intersection has positive area.
      The model relies on no property of this test beyond its being a predicate. */
  predicate Overlaps(a: Rect, b: Rect) {
    && Max(a.left, b.left) < Min(a.left + a.width, b.left + b.width)
    && Max(a.top, b.top) < Min(a.top + a.height, b.top + b.height)
  }

  /** A cast of a floating value to `int`: truncation toward zero. */
  function Trunc(r: real): (n: int)
    ensures 0.0 <= r ==> n as real <= r < n as real + 1.0
    ensures r < 0.0 ==> n as real - 1.0 < r <= n as real
  {
    if r >= 0.0 then r.Floor else -((-r).Floor)
  }

  /** `rand() % n` for a value `roll` returned by `rand()`, which is never negative.
      The remainder of C++ takes the sign of the dividend, so for a non-negative
      dividend it agrees with Dafny's Euclidean `%`; `n == 0` is undefined behaviour. */
  function RandMod(roll: nat, n: int): (k: int)
    requires n != 0
    ensures 0 <= k < Abs(n)
    ensures roll < Abs(n) ==> k == roll
  {
    roll % n
  }
}
