/** The two collision passes of a simulated frame: every obstacle is moved and
    compared with the craft under one shared cooldown timer, then every reward
    is moved and consumed on contact. */
module Collisions {
  import opened Wrappers
  import opened Geometry
  import opened Drifters
  import opened SaveStore
  import opened Session

  /** A contact costs a point only after strictly more than this many milliseconds. */
  const CooldownMs: int := 500

  /** The part of the state one contact with an obstacle can change. */
  datatype Contact = Contact(score: int, cooldown: Option<int>, screen: Screen, isGameOver: bool, store: Store)

  function ContactOf(s: GameState): Contact {
    Contact(s.score, s.cooldown, s.screen, s.isGameOver, s.store)
  }

  function WithContact(s: GameState, c: Contact): GameState {
    s.(score := c.score, cooldown := c.cooldown, screen := c.screen, isGameOver := c.isGameOver, store := c.store)
  }

  /** The effect of the craft touching one obstacle at time `now`, with `saves` the
      in-memory list. The first contact ever only creates the timer; later ones cost
      a point once the timer shows more than 500 ms, and restart it. A score below
      zero ends the game and saves the list. */
  function Hit(c: Contact, saves: seq<Record>, now: int): (r: Contact)
    ensures r.score == c.score || r.score == c.score - 1
    ensures r.score == c.score - 1 <==> c.cooldown.Some? && now - c.cooldown.value > CooldownMs
    ensures r.cooldown == if c.cooldown.Some? && now - c.cooldown.value <= CooldownMs
                          then c.cooldown else Some(now)
    ensures r.isGameOver <==> c.isGameOver || (r.score < c.score && r.score < 0)
    ensures r.score < c.score && r.score < 0 ==> r.screen == Ende && r.store == Save(c.store, saves)
    ensures !(r.score < c.score && r.score < 0) ==> r.screen == c.screen && r.store == c.store
  {
    match c.cooldown
    case None => c.(cooldown := Some(now))
    case Some(start) =>
      if now - start > CooldownMs then
        var c1 := c.(score := c.score - 1, cooldown := Some(now));
        if c1.score < 0 then c1.(screen := Ende, isGameOver := true, store := Save(c1.store, saves))
        else c1
      else c
  }

  /** With one clock reading per frame, a second contact changes nothing. */
  lemma HitIdempotent(c: Contact, saves: seq<Record>, now: int)
    ensures Hit(Hit(c, saves, now), saves, now) == Hit(c, saves, now)
  {
  }

  /** `Hit` when there was a contact, nothing otherwise. */
  function HitIf(contact: bool, c: Contact, saves: seq<Record>, now: int): Contact {
    if contact then Hit(c, saves, now) else c
  }

  /** Two rounds of contacts act like one. */
  lemma HitIfCompose(c: Contact, saves: seq<Record>, now: int, first: bool, later: bool)
    ensures HitIf(later, HitIf(first, c, saves, now), saves, now) == HitIf(first || later, c, saves, now)
  {
    if first && later {
      HitIdempotent(c, saves, now);
    }
  }

  /** Some drifter of `ds` touches the box `player`. */
  predicate AnyOverlap(player: Rect, ds: seq<Drifter>, size: Size) {
    exists i :: 0 <= i < |ds| && Overlaps(player, BoxAt(ds[i].pos, size))
  }

  /** What the obstacle loop carries from one obstacle to the next. */
  datatype Pass = Pass(moved: seq<Drifter>, contact: Contact, draws: nat)

  /** The obstacle loop as written: move the next obstacle, then test it against
      the craft's box `player`. */
  function ObstacleLoop(cfg: Config, player: Rect, saves: seq<Record>, pending: seq<Drifter>, acc: Pass,
                        dt: real, now: int, rand: nat -> nat): Pass
    requires WrapSafe(pending, cfg.obstacle, cfg.field, dt)
    decreases |pending|
  {
    if pending == [] then acc
    else
      var (o, draws) := Step(pending[0], cfg.obstacle, cfg.field, dt, rand, acc.draws);
      var c := HitIf(Overlaps(player, BoxAt(o.pos, cfg.obstacle)), acc.contact, saves, now);
      ObstacleLoop(cfg, player, saves, pending[1..], Pass(acc.moved + [o], c, draws), dt, now, rand)
  }

  lemma AnyOverlapCons(player: Rect, d: Drifter, ds: seq<Drifter>, size: Size)
    ensures AnyOverlap(player, [d] + ds, size)
            <==> Overlaps(player, BoxAt(d.pos, size)) || AnyOverlap(player, ds, size)
  {
    var all := [d] + ds;
    if AnyOverlap(player, ds, size) {
      var i :| 0 <= i < |ds| && Overlaps(player, BoxAt(ds[i].pos, size));
      assert all[i + 1] == ds[i];
    }
    if Overlaps(player, BoxAt(d.pos, size)) {
      assert all[0] == d;
    }
    if AnyOverlap(player, all, size) && !Overlaps(player, BoxAt(d.pos, size)) {
      var i :| 0 <= i < |all| && Overlaps(player, BoxAt(all[i].pos, size));
      assert all[i] == ds[i - 1];
    }
  }

  /** `DriftAll` on a non-empty sequence is one `Step` followed by the rest. */
  lemma DriftAllCons(ds: seq<Drifter>, size: Size, field: Rect, dt: real, rand: nat -> nat, draws: nat)
    requires ds != [] && WrapSafe(ds, size, field, dt)
    ensures WrapSafe(ds[1..], size, field, dt)
    ensures Wraps(ds[0], size, field, dt) ==> WrapRange(field, size) != 0
    ensures var (d, next) := Step(ds[0], size, field, dt, rand, draws);
            var rest := DriftAll(ds[1..], size, field, dt, rand, next);
            DriftAll(ds, size, field, dt, rand, draws) == ([d] + rest.0, rest.1)
  {
    WrapSafeTail(ds, size, field, dt);
  }

  /** The loop moves every obstacle exactly as `DriftAll` does and, because of
      `HitIdempotent`, has the effect of at most one contact. */
  lemma {:induction false} ObstacleLoopHitsOnce(cfg: Config, player: Rect, saves: seq<Record>,
                                                pending: seq<Drifter>, acc: Pass, dt: real, now: int,
                                                rand: nat -> nat)
    requires WrapSafe(pending, cfg.obstacle, cfg.field, dt)
    ensures var m := DriftAll(pending, cfg.obstacle, cfg.field, dt, rand, acc.draws);
            ObstacleLoop(cfg, player, saves, pending, acc, dt, now, rand)
            == Pass(acc.moved + m.0, HitIf(AnyOverlap(player, m.0, cfg.obstacle), acc.contact, saves, now), m.1)
    decreases |pending|
  {
    if pending != [] {
      DriftAllCons(pending, cfg.obstacle, cfg.field, dt, rand, acc.draws);
      var (o, next) := Step(pending[0], cfg.obstacle, cfg.field, dt, rand, acc.draws);
      var hit := Overlaps(player, BoxAt(o.pos, cfg.obstacle));
      var acc1 := Pass(acc.moved + [o], HitIf(hit, acc.contact, saves, now), next);
      ObstacleLoopHitsOnce(cfg, player, saves, pending[1..], acc1, dt, now, rand);
      var rest := DriftAll(pending[1..], cfg.obstacle, cfg.field, dt, rand, next);
      var m := DriftAll(pending, cfg.obstacle, cfg.field, dt, rand, acc.draws);
      assert m.0 == [o] + rest.0 && m.1 == rest.1;
      var later := AnyOverlap(player, rest.0, cfg.obstacle);
      AnyOverlapCons(player, o, rest.0, cfg.obstacle);
      HitIfCompose(acc.contact, saves, now, hit, later);
      assert acc.moved + [o] + rest.0 == acc.moved + m.0;
    }
  }

  /** The obstacle pass of one frame. Every obstacle is moved once; a point is lost
      exactly when some moved obstacle touches the craft and the timer existed and
      showed more than 500 ms; the first contact ever only creates the timer; and
      the game ends exactly when that lost point takes the score below zero. */
  function ObstaclePass(cfg: Config, s: GameState, dt: real, now: int, rand: nat -> nat): (r: GameState)
    requires WrapSafe(s.obstacles, cfg.obstacle, cfg.field, dt)
    ensures var m := DriftAll(s.obstacles, cfg.obstacle, cfg.field, dt, rand, s.draws);
            r.obstacles == m.0 && r.draws == m.1
    ensures r == s.(obstacles := r.obstacles, draws := r.draws, score := r.score, cooldown := r.cooldown,
                    screen := r.screen, isGameOver := r.isGameOver, store := r.store)
    ensures var hit := AnyOverlap(PlayerBox(cfg, s), r.obstacles, cfg.obstacle);
            && (r.score == s.score || r.score == s.score - 1)
            && (r.score == s.score - 1 <==> hit && s.cooldown.Some? && now - s.cooldown.value > CooldownMs)
            && (hit && s.cooldown.None? ==> r.cooldown == Some(now))
            && (hit ==> r.cooldown == if s.cooldown.Some? && now - s.cooldown.value <= CooldownMs
                                      then s.cooldown else Some(now))
            && (!hit ==> r.cooldown == s.cooldown)
    ensures r.isGameOver <==> s.isGameOver || (r.score < s.score && r.score < 0)
    ensures r.score < s.score && r.score < 0 ==> r.screen == Ende && r.store == Save(s.store, s.saves)
    ensures !(r.score < s.score && r.score < 0) ==> r.screen == s.screen && r.store == s.store
  {
    var acc := Pass([], ContactOf(s), s.draws);
    ObstacleLoopHitsOnce(cfg, PlayerBox(cfg, s), s.saves, s.obstacles, acc, dt, now, rand);
    var p := ObstacleLoop(cfg, PlayerBox(cfg, s), s.saves, s.obstacles, acc, dt, now, rand);
    assert [] + p.moved == p.moved;
    WithContact(s, p.contact).(obstacles := p.moved, draws := p.draws)
  }

  /** Is `sub` obtained from `ds` by deleting some elements? */
  predicate IsSubsequence<T(==)>(sub: seq<T>, ds: seq<T>)
    decreases |ds|
  {
    || sub == []
    || (&& ds != []
        && ((sub[0] == ds[0] && IsSubsequence(sub[1..], ds[1..])) || IsSubsequence(sub, ds[1..])))
  }

  /** The drifters of `ds` that do not touch `player`, in their original order. */
  function Survivors(player: Rect, ds: seq<Drifter>, size: Size): seq<Drifter>
    decreases |ds|
  {
    if ds == [] then []
    else if Overlaps(player, BoxAt(ds[0].pos, size)) then Survivors(player, ds[1..], size)
    else [ds[0]] + Survivors(player, ds[1..], size)
  }

  /** The survivors are an order-preserving selection of `ds`, holding exactly the
      drifters that do not touch `player`. */
  lemma {:induction false} SurvivorsSpec(player: Rect, ds: seq<Drifter>, size: Size)
    ensures IsSubsequence(Survivors(player, ds, size), ds)
    ensures |Survivors(player, ds, size)| <= |ds|
    ensures forall d :: d in Survivors(player, ds, size) <==> d in ds && !Overlaps(player, BoxAt(d.pos, size))
    ensures forall d :: multiset(Survivors(player, ds, size))[d]
                        == if Overlaps(player, BoxAt(d.pos, size)) then 0 else multiset(ds)[d]
    decreases |ds|
  {
    if ds != [] {
      SurvivorsSpec(player, ds[1..], size);
      assert ds == [ds[0]] + ds[1..];
      assert multiset(ds) == multiset{ds[0]} + multiset(ds[1..]);
      var r := Survivors(player, ds, size);
      if !Overlaps(player, BoxAt(ds[0].pos, size)) {
        assert r == [ds[0]] + Survivors(player, ds[1..], size);
        assert r[0] == ds[0] && r[1..] == Survivors(player, ds[1..], size);
        assert multiset(r) == multiset{ds[0]} + multiset(Survivors(player, ds[1..], size));
      }
    }
  }

  /** What the reward loop carries from one reward to the next. */
  datatype Collected = Collected(kept: seq<Drifter>, score: int, draws: nat)

  /** The reward loop as written: move the next reward, then erase it and score a
      point if it touches the craft's box `player`. */
  function RewardLoop(cfg: Config, player: Rect, pending: seq<Drifter>, acc: Collected,
                      dt: real, rand: nat -> nat): Collected
    requires WrapSafe(pending, cfg.reward, cfg.field, dt)
    decreases |pending|
  {
    if pending == [] then acc
    else
      var (w, draws) := Step(pending[0], cfg.reward, cfg.field, dt, rand, acc.draws);
      if Overlaps(player, BoxAt(w.pos, cfg.reward)) then
        RewardLoop(cfg, player, pending[1..], Collected(acc.kept, acc.score + 1, draws), dt, rand)
      else
        RewardLoop(cfg, player, pending[1..], Collected(acc.kept + [w], acc.score, draws), dt, rand)
  }

  /** The erase-while-iterating loop is "move everything, then filter", with one
      point per erased reward. */
  lemma {:induction false} RewardLoopFilters(cfg: Config, player: Rect, pending: seq<Drifter>,
                                             acc: Collected, dt: real, rand: nat -> nat)
    requires WrapSafe(pending, cfg.reward, cfg.field, dt)
    ensures var m := DriftAll(pending, cfg.reward, cfg.field, dt, rand, acc.draws);
            var survivors := Survivors(player, m.0, cfg.reward);
            RewardLoop(cfg, player, pending, acc, dt, rand)
            == Collected(acc.kept + survivors, acc.score + (|m.0| - |survivors|), m.1)
    decreases |pending|
  {
    if pending != [] {
      DriftAllCons(pending, cfg.reward, cfg.field, dt, rand, acc.draws);
      var (w, next) := Step(pending[0], cfg.reward, cfg.field, dt, rand, acc.draws);
      var rest := DriftAll(pending[1..], cfg.reward, cfg.field, dt, rand, next);
      var m := DriftAll(pending, cfg.reward, cfg.field, dt, rand, acc.draws);
      assert m.0 == [w] + rest.0 && m.1 == rest.1;
      assert m.0[1..] == rest.0;
      var later := Survivors(player, rest.0, cfg.reward);
      if Overlaps(player, BoxAt(w.pos, cfg.reward)) {
        var acc1 := Collected(acc.kept, acc.score + 1, next);
        assert RewardLoop(cfg, player, pending, acc, dt, rand) == RewardLoop(cfg, player, pending[1..], acc1, dt, rand);
        RewardLoopFilters(cfg, player, pending[1..], acc1, dt, rand);
        assert Survivors(player, m.0, cfg.reward) == later;
      } else {
        var acc1 := Collected(acc.kept + [w], acc.score, next);
        assert RewardLoop(cfg, player, pending, acc, dt, rand) == RewardLoop(cfg, player, pending[1..], acc1, dt, rand);
        RewardLoopFilters(cfg, player, pending[1..], acc1, dt, rand);
        assert Survivors(player, m.0, cfg.reward) == [w] + later;
        assert acc.kept + [w] + later == acc.kept + ([w] + later);
        assert |m.0| - |[w] + later| == |rest.0| - |later|;
      }
    }
  }

  /** The reward pass of one frame: the survivors are the moved rewards that do not
      touch the craft, in order; the score rises by exactly the number erased; and
      nothing else changes, whatever the game-over flag says. */
  function RewardPass(cfg: Config, s: GameState, dt: real, rand: nat -> nat): (r: GameState)
    requires WrapSafe(s.rewards, cfg.reward, cfg.field, dt)
    ensures var m := DriftAll(s.rewards, cfg.reward, cfg.field, dt, rand, s.draws);
            && r.rewards == Survivors(PlayerBox(cfg, s), m.0, cfg.reward)
            && r.draws == m.1
            && (forall i :: 0 <= i < |m.0| && Overlaps(PlayerBox(cfg, s), BoxAt(m.0[i].pos, cfg.reward))
                  ==> m.0[i] !in r.rewards)
            && (forall i :: 0 <= i < |m.0| && !Overlaps(PlayerBox(cfg, s), BoxAt(m.0[i].pos, cfg.reward))
                  ==> m.0[i] in r.rewards)
    ensures r.score == s.score + (|s.rewards| - |r.rewards|)
    ensures |r.rewards| <= |s.rewards|
    ensures forall i :: 0 <= i < |r.rewards| ==> !Overlaps(PlayerBox(cfg, r), BoxAt(r.rewards[i].pos, cfg.reward))
    ensures r == s.(rewards := r.rewards, score := r.score, draws := r.draws)
  {
    var box := PlayerBox(cfg, s);
    RewardLoopFilters(cfg, box, s.rewards, Collected([], s.score, s.draws), dt, rand);
    SurvivorsSpec(box, DriftAll(s.rewards, cfg.reward, cfg.field, dt, rand, s.draws).0, cfg.reward);
    var c := RewardLoop(cfg, box, s.rewards, Collected([], s.score, s.draws), dt, rand);
    s.(rewards := c.kept, score := c.score, draws := c.draws)
  }
}
