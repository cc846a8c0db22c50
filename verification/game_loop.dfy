/** The main loop: the start-up state, one frame (events, the exit check, then the
    simulation step when it is allowed), and a run of frames while the window is
    open. Time, the held keys, the date and `rand()` are inputs. */
module GameLoop {
  import opened Wrappers
  import opened Geometry
  import opened Player
  import opened Drifters
  import opened LevelTable
  import opened SaveStore
  import opened Session
  import opened Collisions
  import opened Keys

  /** What one frame receives from the outside: the pending events, the arrow keys
      held during the update, the seconds since the previous frame, the clock
      reading in milliseconds used by the collision timer, and the date string
      given to any record saved in this frame. */
  datatype Input = Input(events: seq<Event>, held: Held, dt: real, now: int, date: string)

  /** Where the craft starts: the middle of the field, offset by 25 px on both axes. */
  function Center(field: Rect): Vec {
    Vec(field.left + field.width / 2.0 - 25.0, field.top + field.height / 2.0 - 25.0)
  }

  /** The session `main` builds before the loop: the craft at the centre with score
      0, then the save file loaded over them, then the first level spawned. */
  function Initial(cfg: Config, store: Store, rand: nat -> nat): (s: GameState)
    requires Valid(cfg)
    ensures Inv(s) && s.open && Active(s) && s.level == 0 && s.cooldown.None?
    ensures s.saves == Stored(store) && s.store == store
    ensures |s.obstacles| == 5 && |s.rewards| == RewardCount
    ensures Stored(store) == [] ==> s.score == 0 && s.player == Center(cfg.field)
    ensures Stored(store) != [] ==>
              s.score == Last(Stored(store)).score && s.player == Last(Stored(store)).position
  {
    var l := Load(store, [], Center(cfg.field), 0);
    var (obstacles, next) := InitObstacles(Levels[0], cfg.field, rand, 0);
    var (rewards, last) := InitRewards(Levels[0], cfg.field, rand, next);
    GameState(l.position, l.score, 0, Levels[0], obstacles, rewards, Game,
              false, false, false, false, None, l.saves, store, last, true)
  }

  /** Moving drifters does not change their speeds. */
  lemma DriftAllKeepsSpeed(ds: seq<Drifter>, speed: real, size: Size, field: Rect, dt: real,
                           rand: nat -> nat, draws: nat)
    requires WrapSafe(ds, size, field, dt) && AllAtSpeed(ds, speed)
    ensures AllAtSpeed(DriftAll(ds, size, field, dt, rand, draws).0, speed)
  {
    var m := DriftAll(ds, size, field, dt, rand, draws).0;
    DriftAllMoves(ds, size, field, dt, rand, draws);
    forall d | d in m
      ensures d.speed == speed
    {
      var i :| 0 <= i < |m| && m[i] == d;
      assert Moved(ds[i], m[i], size, field, dt);
      assert ds[i] in ds;
    }
  }

  /** One simulated frame: move the craft, run the obstacle pass, then the reward
      pass. At most one point is lost; every erased reward scores, even in the
      frame that ends the game; and the game ends exactly when the lost point
      takes the score below zero. */
  function Simulate(cfg: Config, s: GameState, held: Held, dt: real, now: int, rand: nat -> nat): (r: GameState)
    requires Valid(cfg)
    ensures r == s.(player := r.player, obstacles := r.obstacles, rewards := r.rewards, score := r.score,
                    cooldown := r.cooldown, screen := r.screen, isGameOver := r.isGameOver,
                    store := r.store, draws := r.draws)
    ensures r.player == Update(s.player, held, dt, cfg.ufo, cfg.field)
    ensures |r.obstacles| == |s.obstacles| && |r.rewards| <= |s.rewards|
    ensures var caught := |s.rewards| - |r.rewards|;
            && (r.score == s.score + caught || r.score == s.score + caught - 1)
            && (r.isGameOver <==> s.isGameOver || (s.score <= 0 && r.score == s.score + caught - 1))
    ensures var lost := s.score <= 0 && r.score == s.score + (|s.rewards| - |r.rewards|) - 1;
            && (lost ==> r.screen == Ende && r.store == Save(s.store, s.saves))
            && (!lost ==> r.screen == s.screen && r.store == s.store)
    ensures forall i :: 0 <= i < |r.rewards| ==>
              !Overlaps(PlayerBox(cfg, r), BoxAt(r.rewards[i].pos, cfg.reward))
  {
    var s1 := s.(player := Update(s.player, held, dt, cfg.ufo, cfg.field));
    RewardPass(cfg, ObstaclePass(cfg, s1, dt, now, rand), dt, rand)
  }

  /** A simulated frame keeps the level bookkeeping: the level is unchanged, the
      obstacles keep their number and speed, and the rewards can only become fewer
      and keep their speed. */
  lemma SimulateKeepsInv(cfg: Config, s: GameState, held: Held, dt: real, now: int, rand: nat -> nat)
    requires Valid(cfg)
    ensures Inv(s) ==> Inv(Simulate(cfg, s, held, dt, now, rand))
  {
    if Inv(s) {
      var s1 := s.(player := Update(s.player, held, dt, cfg.ufo, cfg.field));
      var s2 := ObstaclePass(cfg, s1, dt, now, rand);
      DriftAllKeepsSpeed(s1.obstacles, s.currentLevel.obstacleSpeed, cfg.obstacle, cfg.field, dt, rand, s1.draws);
      DriftAllKeepsSpeed(s2.rewards, s.currentLevel.obstacleSpeed / 2.0, cfg.reward, cfg.field, dt, rand, s2.draws);
      SurvivorsSpec(PlayerBox(cfg, s2), DriftAll(s2.rewards, cfg.reward, cfg.field, dt, rand, s2.draws).0, cfg.reward);
    }
  }

  /** The event phase of a frame, then the exit check: an exit request saves the
      list once more and closes the window. */
  function Settle(cfg: Config, s: GameState, input: Input, rand: nat -> nat): (r: GameState)
    requires Valid(cfg)
    ensures Inv(s) ==> Inv(r)
    ensures Latched(s) ==> Latched(r) && r.cooldown == s.cooldown
    ensures r.exitRequested ==> !r.open
  {
    var s1 := HandleEvents(cfg, s, input.events, input.date, rand);
    if s1.exitRequested then s1.(store := Save(s1.store, s1.saves), open := false) else s1
  }

  /** One iteration of the main loop. The simulation runs only on the play screen
      with no help, pause or game over. */
  function Frame(cfg: Config, s: GameState, input: Input, rand: nat -> nat): (r: GameState)
    requires Valid(cfg) && s.open
    ensures Inv(s) ==> Inv(r)
    ensures Latched(s) ==> Latched(r) && r.cooldown == s.cooldown
    ensures r.exitRequested ==> !r.open
    ensures input.events == [] && !s.exitRequested && !Active(s) ==> r == s
  {
    var s1 := Settle(cfg, s, input, rand);
    if Active(s1) then
      SimulateKeepsInv(cfg, s1, input.held, input.dt, input.now, rand);
      Simulate(cfg, s1, input.held, input.dt, input.now, rand)
    else s1
  }

  /** Frames, one per input, for as long as the window stays open. */
  function Run(cfg: Config, s: GameState, inputs: seq<Input>, rand: nat -> nat): (r: GameState)
    requires Valid(cfg)
    ensures Inv(s) ==> Inv(r)
    ensures Latched(s) ==> Latched(r) && r.cooldown == s.cooldown
    decreases |inputs|
  {
    if inputs == [] || !s.open then s
    else Run(cfg, Frame(cfg, s, inputs[0], rand), inputs[1..], rand)
  }

  /** After game over, M leaves `Ende` for the menu with the game-over flag still set.
      G acts only on `Ende`, and only the simulation can return there, so from then
      on no frame simulates and no collision is processed again. */
  lemma MenuAfterGameOverLatches(cfg: Config, s: GameState, inputs: seq<Input>, date: string, rand: nat -> nat)
    requires Valid(cfg) && s.screen == Ende && s.isGameOver
    ensures var s1 := HandleKey(cfg, s, M, date, rand);
            && s1.screen == Los && Latched(s1)
            && Latched(Run(cfg, s1, inputs, rand)) && !Active(Run(cfg, s1, inputs, rand))
            && Run(cfg, s1, inputs, rand).cooldown == s.cooldown
  {
  }

  /** Confirming the exit saves twice: once in the Escape branch with the new
      record, and again after the events with the same list. */
  lemma ExitSavesTwice(cfg: Config, s: GameState, input: Input, rand: nat -> nat)
    requires Valid(cfg) && s.open && s.showPause && !s.exitRequested
    requires input.events == [KeyPressed(Escape)]
    ensures var list := s.saves + [Record(s.player, s.score, input.date)];
            var r := Frame(cfg, s, input, rand);
            && !r.open && r.exitRequested && r.saves == list
            && r.store == Some(Stored(s.store) + list + list)
  {
    var list := s.saves + [Record(s.player, s.score, input.date)];
    assert HandleEvents(cfg, s, input.events, input.date, rand)
        == HandleKey(cfg, s, Escape, input.date, rand);
    assert Stored(Save(s.store, list)) + list == Stored(s.store) + list + list;
  }

  /** A fresh start without a readable history: score 0 on the play screen, the
      craft at the centre of the field. */
  lemma FreshStart(cfg: Config, rand: nat -> nat)
    requires Valid(cfg)
    ensures var s := Initial(cfg, None, rand);
            s.score == 0 && s.screen == Game && s.player == Center(cfg.field) && Active(s)
  {
  }
}
