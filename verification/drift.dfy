/** Obstacles and rewards (`Obstacle::update`, `Reward::update`): both move left at
    their own speed and, once fully past the left edge, re-enter at the right edge
    at a height drawn from `rand()`. */
module Drifters {
  import opened Geometry

  /** An obstacle or a reward: the top-left corner of its sprite and its speed. */
  datatype Drifter = Drifter(pos: Vec, speed: real)

  /** Horizontal position after moving left for `dt` seconds. */
  function Advanced(d: Drifter, dt: real): real { d.pos.x - d.speed * dt }

  /** The sprite box has fully left the field past its left edge. */
  predicate Wraps(d: Drifter, size: Size, field: Rect, dt: real) {
    Advanced(d, dt) + size.w < field.left
  }

  /** The divisor of the re-entry height, `int(height - h)`. */
  function WrapRange(field: Rect, size: Size): int { Trunc(field.height - size.h) }

  /** `after` is what one update can make of `before`. */
  predicate Moved(before: Drifter, after: Drifter, size: Size, field: Rect, dt: real) {
    && after.speed == before.speed
    && (!Wraps(before, size, field, dt) ==>
          after.pos == Vec(before.pos.x - before.speed * dt, before.pos.y))
    && (Wraps(before, size, field, dt) ==>
          && after.pos.x == field.left + field.width
          && field.top <= after.pos.y < field.top + Abs(WrapRange(field, size)) as real)
  }

  /** One update, with `roll` the value `rand()` returns if the drifter wraps. */
  function Drift(d: Drifter, size: Size, field: Rect, dt: real, roll: nat): (r: Drifter)
    requires Wraps(d, size, field, dt) ==> WrapRange(field, size) != 0
    ensures Moved(d, r, size, field, dt)
    ensures Wraps(d, size, field, dt) && WrapRange(field, size) > 0 ==>
              r.pos.y + size.h < field.top + field.height
    ensures d.speed * dt >= 0.0 && d.pos.x <= field.left + field.width ==>
              r.pos.x <= field.left + field.width
  {
    var x := Advanced(d, dt);
    if x + size.w < field.left then
      Drifter(Vec(field.left + field.width,
                  field.top + RandMod(roll, WrapRange(field, size)) as real), d.speed)
    else
      Drifter(Vec(x, d.pos.y), d.speed)
  }

  /** No drifter of `ds` needs the wrap's remainder when its divisor is zero. */
  predicate WrapSafe(ds: seq<Drifter>, size: Size, field: Rect, dt: real) {
    forall i :: 0 <= i < |ds| && Wraps(ds[i], size, field, dt) ==> WrapRange(field, size) != 0
  }

  /** The tail of a wrap-safe list is wrap-safe, and so is its head. */
  lemma WrapSafeTail(ds: seq<Drifter>, size: Size, field: Rect, dt: real)
    requires ds != [] && WrapSafe(ds, size, field, dt)
    ensures WrapSafe(ds[1..], size, field, dt)
    ensures Wraps(ds[0], size, field, dt) ==> WrapRange(field, size) != 0
  {
    forall i | 0 <= i < |ds[1..]| && Wraps(ds[1..][i], size, field, dt)
      ensures WrapRange(field, size) != 0
    {
      assert ds[1..][i] == ds[i + 1];
    }
  }

  /** One update inside a pass: `rand()` is drawn (and the draw counter advances)
      only when the drifter wraps. */
  function Step(d: Drifter, size: Size, field: Rect, dt: real, rand: nat -> nat, draws: nat): (r: (Drifter, nat))
    requires Wraps(d, size, field, dt) ==> WrapRange(field, size) != 0
    ensures r.1 == if Wraps(d, size, field, dt) then draws + 1 else draws
    ensures Wraps(d, size, field, dt) ==> r.0.pos.y == field.top + RandMod(rand(draws), WrapRange(field, size)) as real
  {
    if Wraps(d, size, field, dt) then (Drift(d, size, field, dt, rand(draws)), draws + 1)
    else (Drift(d, size, field, dt, 0), draws)
  }

  /** Number of drifters of `ds` that wrap in this update. */
  function CountWraps(ds: seq<Drifter>, size: Size, field: Rect, dt: real): nat {
    if ds == [] then 0
    else (if Wraps(ds[0], size, field, dt) then 1 else 0) + CountWraps(ds[1..], size, field, dt)
  }

  /** Every drifter of `ds` updated once, in order, drawing from the stream `rand`
      starting at position `draws`. */
  function DriftAll(ds: seq<Drifter>, size: Size, field: Rect, dt: real, rand: nat -> nat, draws: nat): (r: (seq<Drifter>, nat))
    requires WrapSafe(ds, size, field, dt)
    ensures |r.0| == |ds|
    ensures r.1 == draws + CountWraps(ds, size, field, dt)
    decreases |ds|
  {
    if ds == [] then ([], draws)
    else
      var (d, next) := Step(ds[0], size, field, dt, rand, draws);
      var rest := DriftAll(ds[1..], size, field, dt, rand, next);
      ([d] + rest.0, rest.1)
  }

  /** Each drifter of the result is what one update makes of the drifter at the
      same index. */
  lemma {:induction false} DriftAllMoves(ds: seq<Drifter>, size: Size, field: Rect, dt: real,
                                         rand: nat -> nat, draws: nat)
    requires WrapSafe(ds, size, field, dt)
    ensures var r := DriftAll(ds, size, field, dt, rand, draws).0;
            forall i :: 0 <= i < |ds| ==> Moved(ds[i], r[i], size, field, dt)
    decreases |ds|
  {
    if ds != [] {
      WrapSafeTail(ds, size, field, dt);
      var (d, next) := Step(ds[0], size, field, dt, rand, draws);
      DriftAllMoves(ds[1..], size, field, dt, rand, next);
      var r := DriftAll(ds, size, field, dt, rand, draws).0;
      var rest := DriftAll(ds[1..], size, field, dt, rand, next).0;
      assert r == [d] + rest;
      forall i | 0 <= i < |ds|
        ensures Moved(ds[i], r[i], size, field, dt)
      {
        if i > 0 {
          assert ds[i] == ds[1..][i - 1] && r[i] == rest[i - 1];
        }
      }
    }
  }

  /** A drifter that starts no further right than the re-entry column, moving left
      (speed and time not negative), stays there over any number of updates. */
  lemma {:induction false} DriftNeverPassesEntry(d: Drifter, size: Size, field: Rect, dts: seq<real>, rolls: seq<nat>)
    requires |rolls| == |dts|
    requires WrapRange(field, size) != 0
    requires d.speed >= 0.0 && d.pos.x <= field.left + field.width
    requires forall i :: 0 <= i < |dts| ==> dts[i] >= 0.0
    ensures Drifts(d, size, field, dts, rolls).pos.x <= field.left + field.width
    decreases |dts|
  {
    if dts != [] {
      var d1 := Drift(d, size, field, dts[0], rolls[0]);
      assert d.speed * dts[0] >= 0.0;
      DriftNeverPassesEntry(d1, size, field, dts[1..], rolls[1..]);
    }
  }

  /** The drifter after successive updates with the given frame times and draws. */
  function Drifts(d: Drifter, size: Size, field: Rect, dts: seq<real>, rolls: seq<nat>): Drifter
    requires |rolls| == |dts|
    requires WrapRange(field, size) != 0
    decreases |dts|
  {
    if dts == [] then d
    else Drifts(Drift(d, size, field, dts[0], rolls[0]), size, field, dts[1..], rolls[1..])
  }
}
