/** The level catalogue and the spawning of a level's obstacles and rewards
    (`initializeObstacles`, `initializeRewards`). */
module LevelTable {
  import opened Geometry
  import opened Drifters

  /** One level: the obstacles' speed and how many obstacles it has. */
  datatype Level = Level(obstacleSpeed: real, numObstacles: nat)

  /** The three levels, slowest first. */
  const Levels: seq<Level> := [Level(100.0, 5), Level(150.0, 8), Level(215.0, 10)]

  /** Every level starts with this many rewards. */
  const RewardCount: nat := 3

  /** The level after `i`, wrapping from the last back to the first. */
  function NextLevel(i: nat): (j: nat)
    ensures j < |Levels|
    ensures i + 1 < |Levels| ==> j == i + 1
    ensures i + 1 == |Levels| ==> j == 0
  {
    (i + 1) % |Levels|
  }

  /** Three advances from any level of the catalogue come back to it. */
  lemma LevelCycle(i: nat)
    requires i < |Levels|
    ensures NextLevel(NextLevel(NextLevel(i))) == i
  {
  }

  /** The drifter spawned from the `k`-th pair of draws after `draws`: x first, then y. */
  function Spawned(speed: real, field: Rect, rand: nat -> nat, draws: nat, k: nat): Drifter
    requires Trunc(field.width) != 0 && Trunc(field.height) != 0
  {
    Drifter(Vec(field.left + RandMod(rand(draws + 2 * k), Trunc(field.width)) as real,
                field.top + RandMod(rand(draws + 2 * k + 1), Trunc(field.height)) as real),
            speed)
  }

  /** `count` drifters at drawn positions inside the field's top-left
      `int(width)` by `int(height)` cells, consuming two draws each. */
  function Spawn(count: nat, speed: real, field: Rect, rand: nat -> nat, draws: nat): (r: (seq<Drifter>, nat))
    requires Trunc(field.width) != 0 && Trunc(field.height) != 0
    ensures |r.0| == count
    ensures r.1 == draws + 2 * count
    ensures forall k :: 0 <= k < count ==> r.0[k] == Spawned(speed, field, rand, draws, k)
    decreases count
  {
    if count == 0 then ([], draws)
    else
      var rest := Spawn(count - 1, speed, field, rand, draws + 2);
      ([Spawned(speed, field, rand, draws, 0)] + rest.0, rest.1)
  }

  /** Every spawned drifter has the requested speed and a position in the
      field's spawning area. */
  lemma SpawnInArea(count: nat, speed: real, field: Rect, rand: nat -> nat, draws: nat)
    requires Trunc(field.width) != 0 && Trunc(field.height) != 0
    ensures forall d :: d in Spawn(count, speed, field, rand, draws).0 ==>
      && d.speed == speed
      && field.left <= d.pos.x < field.left + Abs(Trunc(field.width)) as real
      && field.top <= d.pos.y < field.top + Abs(Trunc(field.height)) as real
  {
    var r := Spawn(count, speed, field, rand, draws).0;
    forall d | d in r
      ensures d.speed == speed
      ensures field.left <= d.pos.x < field.left + Abs(Trunc(field.width)) as real
      ensures field.top <= d.pos.y < field.top + Abs(Trunc(field.height)) as real
    {
      var k :| 0 <= k < |r| && r[k] == d;
      assert d == Spawned(speed, field, rand, draws, k);
    }
  }

  /** `initializeObstacles`: the level's number of obstacles at the level's speed. */
  function InitObstacles(level: Level, field: Rect, rand: nat -> nat, draws: nat): (r: (seq<Drifter>, nat))
    requires Trunc(field.width) != 0 && Trunc(field.height) != 0
    ensures |r.0| == level.numObstacles
    ensures forall d :: d in r.0 ==> d.speed == level.obstacleSpeed
    ensures r.1 == draws + 2 * level.numObstacles
  {
    SpawnInArea(level.numObstacles, level.obstacleSpeed, field, rand, draws);
    Spawn(level.numObstacles, level.obstacleSpeed, field, rand, draws)
  }

  /** `initializeRewards`: three rewards at half the level's obstacle speed. */
  function InitRewards(level: Level, field: Rect, rand: nat -> nat, draws: nat): (r: (seq<Drifter>, nat))
    requires Trunc(field.width) != 0 && Trunc(field.height) != 0
    ensures |r.0| == RewardCount
    ensures forall d :: d in r.0 ==> d.speed == level.obstacleSpeed / 2.0
    ensures r.1 == draws + 2 * RewardCount
  {
    SpawnInArea(RewardCount, level.obstacleSpeed / 2.0, field, rand, draws);
    Spawn(RewardCount, level.obstacleSpeed / 2.0, field, rand, draws)
  }
}
