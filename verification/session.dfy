/** The whole game session as one value: the craft, the drifters, the score, the
    screen (`ScreenManager`), the interface flags (`Interfejs`), the collision
    timer, the in-memory save list and the save file. */
module Session {
  import opened Wrappers
  import opened Geometry
  import opened Drifters
  import opened LevelTable
  import opened SaveStore

  /** The three screens: play, game over, and the menu. */
  datatype Screen = Game | Ende | Los

  /** The play field and the sprite sizes, which come from the window and the
      textures. */
  datatype Config = Config(field: Rect, ufo: Size, obstacle: Size, reward: Size)

  /** Every `rand() % n` of the game has a non-zero divisor: the spawning
      remainders `int(width)` and `int(height)`, and the re-entry remainder of
      each kind of drifter. */
  predicate Valid(cfg: Config) {
    && Trunc(cfg.field.width) != 0
    && Trunc(cfg.field.height) != 0
    && WrapRange(cfg.field, cfg.obstacle) != 0
    && WrapRange(cfg.field, cfg.reward) != 0
  }

  datatype GameState = GameState(
    player: Vec,
    score: int,
    level: nat,                  // index into the level catalogue
    currentLevel: Level,         // the copy of the catalogue entry the spawners use
    obstacles: seq<Drifter>,
    rewards: seq<Drifter>,
    screen: Screen,
    showHelp: bool,
    showPause: bool,
    exitRequested: bool,
    isGameOver: bool,
    cooldown: Option<int>,       // start of the collision timer in ms; None until first created
    saves: seq<Record>,          // the in-memory save list
    store: Store,                // the save file
    draws: nat,                  // how many values of the rand() stream have been used
    open: bool)                  // the window is open

  /** `Interfejs::toggleHelp`: flips the help flag and nothing else. */
  function ToggleHelp(s: GameState): (r: GameState)
    ensures r.showHelp != s.showHelp && r.(showHelp := s.showHelp) == s
  { s.(showHelp := !s.showHelp) }

  /** `Interfejs::togglePause`: flips the pause flag and nothing else. */
  function TogglePause(s: GameState): (r: GameState)
    ensures r.showPause != s.showPause && r.(showPause := s.showPause) == s
  { s.(showPause := !s.showPause) }

  /** `Interfejs::resumeGame`: the pause flag is off afterwards, whatever it was. */
  function ResumeGame(s: GameState): (r: GameState)
    ensures !r.showPause && r.(showPause := s.showPause) == s
  { s.(showPause := false) }

  /** `Interfejs::requestExit`: the exit flag is on afterwards, whatever it was. */
  function RequestExit(s: GameState): (r: GameState)
    ensures r.exitRequested && r.(exitRequested := s.exitRequested) == s
  { s.(exitRequested := true) }

  /** `ScreenManager::switchTo`: shows `screen` and changes nothing else. */
  function SwitchTo(s: GameState, screen: Screen): (r: GameState)
    ensures r.screen == screen && r.(screen := s.screen) == s
  { s.(screen := screen) }

  function PlayerBox(cfg: Config, s: GameState): Rect { BoxAt(s.player, cfg.ufo) }

  /** The simulation runs: the play screen, and no help, pause or game over. */
  predicate Active(s: GameState) {
    s.screen == Game && !s.showHelp && !s.showPause && !s.isGameOver
  }

  /** Every drifter of `ds` moves at `speed`. */
  predicate AllAtSpeed(ds: seq<Drifter>, speed: real) {
    forall d :: d in ds ==> d.speed == speed
  }

  /** The level bookkeeping every reachable state keeps: a valid level index whose
      entry is the current level, that level's number of obstacles at its speed,
      and at most three rewards at half that speed. */
  predicate Inv(s: GameState) {
    && s.level < |Levels|
    && s.currentLevel == Levels[s.level]
    && |s.obstacles| == s.currentLevel.numObstacles
    && AllAtSpeed(s.obstacles, s.currentLevel.obstacleSpeed)
    && |s.rewards| <= RewardCount
    && AllAtSpeed(s.rewards, s.currentLevel.obstacleSpeed / 2.0)
  }

  /** The invariant reads only the level, its entry and the two drifter lists. */
  lemma InvFrame(s: GameState, r: GameState)
    requires r.level == s.level && r.currentLevel == s.currentLevel
    requires r.obstacles == s.obstacles && r.rewards == s.rewards
    ensures Inv(s) ==> Inv(r)
  {
  }

  /** Game over was set, but the screen has since been switched away from `Ende`. */
  predicate Latched(s: GameState) {
    s.isGameOver && s.screen != Ende
  }
}
