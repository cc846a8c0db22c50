/** The key dispatch of the main loop: each pressed key takes at most one branch
    of an `if`/`else if` chain over the key code. */
module Keys {
  import opened Wrappers
  import opened Geometry
  import opened Drifters
  import opened LevelTable
  import opened SaveStore
  import opened Session

  /** The keys the game reacts to; every other key is `Other`. */
  datatype Key = M | G | Escape | LShift | RShift | F1 | Return | F | S | Other

  /** A window event: the close button, or a key press. */
  datatype Event = Closed | KeyPressed(key: Key)

  /** Load the save file into the list, the craft's position and the score. */
  function Reload(s: GameState): (r: GameState)
    ensures r == s.(saves := r.saves, player := r.player, score := r.score)
    ensures r.score != s.score || r.player != s.player ==> s.store.Some? && s.store.value != []
  {
    var l := Load(s.store, s.saves, s.player, s.score);
    s.(saves := l.saves, player := l.position, score := l.score)
  }

  /** Spawn the current level's obstacles, then its rewards. */
  function Reinitialize(cfg: Config, s: GameState, rand: nat -> nat): (r: GameState)
    requires Valid(cfg)
    ensures r == s.(obstacles := r.obstacles, rewards := r.rewards, draws := r.draws)
    ensures |r.obstacles| == s.currentLevel.numObstacles
    ensures AllAtSpeed(r.obstacles, s.currentLevel.obstacleSpeed)
    ensures |r.rewards| == RewardCount
    ensures AllAtSpeed(r.rewards, s.currentLevel.obstacleSpeed / 2.0)
  {
    var (obstacles, next) := InitObstacles(s.currentLevel, cfg.field, rand, s.draws);
    var (rewards, last) := InitRewards(s.currentLevel, cfg.field, rand, next);
    s.(obstacles := obstacles, rewards := rewards, draws := last)
  }

  /** Append a record of the current position and score, then save the whole list. */
  function SaveGame(s: GameState, date: string): (r: GameState)
    ensures r == s.(saves := r.saves, store := r.store)
    ensures |r.saves| == |s.saves| + 1 && r.saves[..|s.saves|] == s.saves
    ensures Last(r.saves) == Record(s.player, s.score, date)
    ensures Stored(r.store) == Stored(s.store) + r.saves
  {
    var saves := s.saves + [Record(s.player, s.score, date)];
    s.(saves := saves, store := Save(s.store, saves))
  }

  /** G on the game-over screen: clear the flag, reload, respawn the current level,
      and return to play. */
  function Restart(cfg: Config, s: GameState, rand: nat -> nat): (r: GameState)
    requires Valid(cfg)
    ensures r == s.(isGameOver := false, saves := r.saves, player := r.player, score := r.score,
                    obstacles := r.obstacles, rewards := r.rewards, draws := r.draws, screen := Game)
    ensures r.score != s.score || r.player != s.player ==> s.store.Some? && s.store.value != []
    ensures Inv(s) ==> Inv(r)
  {
    SwitchTo(Reinitialize(cfg, Reload(s.(isGameOver := false)), rand), Game)
  }

  /** Return: move to the next level of the cycle and respawn. */
  function AdvanceLevel(cfg: Config, s: GameState, rand: nat -> nat): (r: GameState)
    requires Valid(cfg)
    ensures r == s.(level := r.level, currentLevel := r.currentLevel, obstacles := r.obstacles,
                    rewards := r.rewards, draws := r.draws)
    ensures r.level == NextLevel(s.level) && r.currentLevel == Levels[r.level]
    ensures Inv(r)
  {
    var i := NextLevel(s.level);
    Reinitialize(cfg, s.(level := i, currentLevel := Levels[i]), rand)
  }

  /** One key press. `date` is the formatted local time used for a new record.
      `KeyKeepsInv`, `KeyFlags` and `KeyData` state what a press can and
      cannot change. */
  function HandleKey(cfg: Config, s: GameState, key: Key, date: string, rand: nat -> nat): GameState
    requires Valid(cfg)
  {
    match key
    case M =>
      if s.screen == Los then SwitchTo(s, Game) else SwitchTo(s, Los)
    case G =>
      if s.screen == Ende then Restart(cfg, s, rand) else s
    case Escape =>
      if s.showPause then RequestExit(SaveGame(s, date)) else TogglePause(s)
    case LShift | RShift =>
      if s.showPause then ResumeGame(s) else s
    case F1 => ToggleHelp(s)
    case Return => AdvanceLevel(cfg, s, rand)
    case F => Reload(s)
    case S => SaveGame(s, date)
    case Other => s
  }

  /** A key press keeps the level invariant and a latched game over. */
  lemma KeyKeepsInv(cfg: Config, s: GameState, key: Key, date: string, rand: nat -> nat)
    requires Valid(cfg)
    ensures var r := HandleKey(cfg, s, key, date, rand);
            && (Inv(s) ==> Inv(r))
            && (Latched(s) ==> Latched(r))
  {
    var r := HandleKey(cfg, s, key, date, rand);
    match key
    case G =>
      if s.screen == Ende {
        assert r == Restart(cfg, s, rand);
      } else {
        assert r == s;
      }
    case Return =>
      assert r == AdvanceLevel(cfg, s, rand);
    case M =>
      assert r == SwitchTo(s, if s.screen == Los then Game else Los);
      InvFrame(s, r);
    case Escape =>
      assert r == if s.showPause then RequestExit(SaveGame(s, date)) else TogglePause(s);
      InvFrame(s, r);
    case LShift =>
      InvFrame(s, r);
    case RShift =>
      InvFrame(s, r);
    case F1 =>
      InvFrame(s, r);
    case F =>
      assert r == Reload(s);
      InvFrame(s, r);
    case S =>
      assert r == SaveGame(s, date);
      InvFrame(s, r);
    case Other =>
  }

  /** A key press never touches the window or the collision timer, and only Escape
      during pause requests the exit. */
  lemma KeyFlags(cfg: Config, s: GameState, key: Key, date: string, rand: nat -> nat)
    requires Valid(cfg)
    ensures var r := HandleKey(cfg, s, key, date, rand);
            && r.open == s.open && r.cooldown == s.cooldown
            && (r.exitRequested <==> s.exitRequested || (key == Escape && s.showPause))
  {
    var r := HandleKey(cfg, s, key, date, rand);
    match key
    case G =>
      if s.screen == Ende {
        assert r == Restart(cfg, s, rand);
      } else {
        assert r == s;
      }
    case Return =>
      assert r == AdvanceLevel(cfg, s, rand);
    case M =>
      assert r == SwitchTo(s, if s.screen == Los then Game else Los);
    case Escape =>
      assert r == if s.showPause then RequestExit(SaveGame(s, date)) else TogglePause(s);
    case LShift =>
    case RShift =>
    case F1 =>
    case F =>
      assert r == Reload(s);
    case S =>
      assert r == SaveGame(s, date);
    case Other =>
  }

  /** Only G on the game-over screen clears game over, and no key sets it. */
  lemma KeyGameOver(cfg: Config, s: GameState, key: Key, date: string, rand: nat -> nat)
    requires Valid(cfg)
    ensures HandleKey(cfg, s, key, date, rand).isGameOver <==> s.isGameOver && !(key == G && s.screen == Ende)
  {
    var r := HandleKey(cfg, s, key, date, rand);
    match key
    case G =>
      if s.screen == Ende {
        assert r == Restart(cfg, s, rand);
      } else {
        assert r == s;
      }
    case Return =>
      assert r == AdvanceLevel(cfg, s, rand);
    case M =>
      assert r == SwitchTo(s, if s.screen == Los then Game else Los);
    case Escape =>
      assert r == if s.showPause then RequestExit(SaveGame(s, date)) else TogglePause(s);
    case LShift =>
    case RShift =>
    case F1 =>
    case F =>
      assert r == Reload(s);
    case S =>
      assert r == SaveGame(s, date);
    case Other =>
  }

  /** Only S and Escape during pause write the file; only F, or G on the game-over
      screen, change the score or the position, and only from a file holding a
      record. */
  lemma KeyData(cfg: Config, s: GameState, key: Key, date: string, rand: nat -> nat)
    requires Valid(cfg)
    ensures var r := HandleKey(cfg, s, key, date, rand);
            && (r.store != s.store ==> key == S || (key == Escape && s.showPause))
            && (r.score != s.score || r.player != s.player ==>
                  && (key == F || (key == G && s.screen == Ende))
                  && s.store.Some? && s.store.value != [])
  {
    var r := HandleKey(cfg, s, key, date, rand);
    match key
    case G =>
      if s.screen == Ende {
        assert r == Restart(cfg, s, rand);
      } else {
        assert r == s;
      }
    case Return =>
      assert r == AdvanceLevel(cfg, s, rand);
    case M =>
      assert r == SwitchTo(s, if s.screen == Los then Game else Los);
    case Escape =>
      assert r == if s.showPause then RequestExit(SaveGame(s, date)) else TogglePause(s);
    case LShift =>
    case RShift =>
    case F1 =>
    case F =>
      assert r == Reload(s);
    case S =>
      assert r == SaveGame(s, date);
    case Other =>
  }

  /** The events of one frame, in order. Closing the window ends the polling, so
      the events after `Closed` are never seen. */
  function HandleEvents(cfg: Config, s: GameState, events: seq<Event>, date: string, rand: nat -> nat): (r: GameState)
    requires Valid(cfg)
    ensures Inv(s) ==> Inv(r)
    ensures Latched(s) ==> Latched(r)
    ensures r.cooldown == s.cooldown
    ensures Closed in events ==> !r.open
    ensures Closed !in events ==> r.open == s.open
    decreases |events|
  {
    if events == [] then s
    else match events[0]
      case Closed => s.(open := false)
      case KeyPressed(k) =>
        KeyKeepsInv(cfg, s, k, date, rand);
        KeyFlags(cfg, s, k, date, rand);
        HandleEvents(cfg, HandleKey(cfg, s, k, date, rand), events[1..], date, rand)
  }

  /** F1 flips the help overlay and nothing else, whatever the screen, so pressing
      it twice changes nothing. */
  lemma HelpKeyInvolution(cfg: Config, s: GameState, date: string, rand: nat -> nat)
    requires Valid(cfg)
    ensures HandleKey(cfg, s, F1, date, rand) == s.(showHelp := !s.showHelp)
    ensures HandleKey(cfg, HandleKey(cfg, s, F1, date, rand), F1, date, rand) == s
  {
  }

  /** Escape outside a pause only opens the pause overlay. During a pause it appends
      a record of the current position and score, saves the list, and requests the
      exit, changing nothing else. */
  lemma EscapeKey(cfg: Config, s: GameState, date: string, rand: nat -> nat)
    requires Valid(cfg)
    ensures !s.showPause ==> HandleKey(cfg, s, Escape, date, rand) == s.(showPause := true)
    ensures var list := s.saves + [Record(s.player, s.score, date)];
            s.showPause ==> HandleKey(cfg, s, Escape, date, rand)
                            == s.(saves := list, store := Save(s.store, list), exitRequested := true)
  {
  }

  /** M swaps the menu and the play screen; from the game-over screen it goes to
      the menu, and a second M then reaches the play screen. */
  lemma MenuKey(cfg: Config, s: GameState, date: string, rand: nat -> nat)
    requires Valid(cfg)
    ensures HandleKey(cfg, s, M, date, rand) == s.(screen := if s.screen == Los then Game else Los)
    ensures s.screen != Ende ==> HandleKey(cfg, HandleKey(cfg, s, M, date, rand), M, date, rand) == s
    ensures s.screen == Ende ==> HandleKey(cfg, s, M, date, rand) == s.(screen := Los)
  {
  }

  /** Escape pauses; Shift resumes; so Escape then Shift from an unpaused game is no change. */
  lemma PauseThenResume(cfg: Config, s: GameState, shift: Key, date: string, rand: nat -> nat)
    requires Valid(cfg) && !s.showPause && (shift == LShift || shift == RShift)
    ensures HandleKey(cfg, HandleKey(cfg, s, Escape, date, rand), shift, date, rand) == s
  {
  }

  /** Shift does nothing but clear the pause flag. */
  lemma ShiftOnlyResumes(cfg: Config, s: GameState, shift: Key, date: string, rand: nat -> nat)
    requires Valid(cfg) && (shift == LShift || shift == RShift)
    ensures HandleKey(cfg, s, shift, date, rand) == s.(showPause := false)
  {
  }

  /** The second Escape of a pause appends one record, saves the whole list and
      asks to exit. */
  lemma EscapeTwiceExits(cfg: Config, s: GameState, date: string, rand: nat -> nat)
    requires Valid(cfg) && !s.showPause
    ensures var r := HandleKey(cfg, HandleKey(cfg, s, Escape, date, rand), Escape, date, rand);
            && r.exitRequested && r.showPause
            && r.saves == s.saves + [Record(s.player, s.score, date)]
            && r.store == Save(s.store, r.saves)
            && r.player == s.player && r.score == s.score
  {
  }

  /** S then F restores the position and score just saved; the list becomes the
      old file history followed by the whole list that was saved. */
  lemma SaveThenLoadKeys(cfg: Config, s: GameState, date: string, rand: nat -> nat)
    requires Valid(cfg)
    ensures var r := HandleKey(cfg, HandleKey(cfg, s, S, date, rand), F, date, rand);
            && r.player == s.player && r.score == s.score
            && r.saves == Stored(s.store) + s.saves + [Record(s.player, s.score, date)]
  {
    var rec := Record(s.player, s.score, date);
    SaveThenLoad(s.store, s.saves, rec, s.saves + [rec], s.player, s.score);
  }

  /** Every save writes the entire list after the stored history, so two saves in
      a row store the first list twice. */
  lemma SaveTwiceDuplicates(cfg: Config, s: GameState, d1: string, d2: string, rand: nat -> nat)
    requires Valid(cfg)
    ensures var first := s.saves + [Record(s.player, s.score, d1)];
            HandleKey(cfg, HandleKey(cfg, s, S, d1, rand), S, d2, rand).store
            == Some(Stored(s.store) + first + first + [Record(s.player, s.score, d2)])
  {
    var first := s.saves + [Record(s.player, s.score, d1)];
    assert Stored(s.store) + first + (first + [Record(s.player, s.score, d2)])
        == Stored(s.store) + first + first + [Record(s.player, s.score, d2)];
  }

  /** Return advances the level cyclically and respawns: the new level's number of
      obstacles at its speed and three rewards at half that speed. */
  lemma LevelAdvance(cfg: Config, s: GameState, date: string, rand: nat -> nat)
    requires Valid(cfg) && Inv(s)
    ensures var r := HandleKey(cfg, s, Return, date, rand);
            && r.level == NextLevel(s.level)
            && r.currentLevel == Levels[r.level]
            && |r.obstacles| == Levels[r.level].numObstacles
            && AllAtSpeed(r.obstacles, Levels[r.level].obstacleSpeed)
            && |r.rewards| == RewardCount
            && AllAtSpeed(r.rewards, Levels[r.level].obstacleSpeed / 2.0)
            && r.screen == s.screen && r.score == s.score && r.player == s.player
  {
  }

  /** From the second level, Return reaches the third: ten obstacles at 215 px/s
      and three rewards at 107.5 px/s. */
  lemma SecondToThirdLevel(cfg: Config, s: GameState, date: string, rand: nat -> nat)
    requires Valid(cfg) && Inv(s) && s.level == 1
    ensures var r := HandleKey(cfg, s, Return, date, rand);
            && r.level == 2 && |r.obstacles| == 10 && AllAtSpeed(r.obstacles, 215.0)
            && |r.rewards| == 3 && AllAtSpeed(r.rewards, 107.5)
  {
    LevelAdvance(cfg, s, date, rand);
  }

  /** G on the game-over screen clears the flag, reloads the last record if the file
      holds one, respawns the current level and returns to play. */
  lemma RestartFromEnde(cfg: Config, s: GameState, date: string, rand: nat -> nat)
    requires Valid(cfg) && Inv(s) && s.screen == Ende
    ensures var r := HandleKey(cfg, s, G, date, rand);
            && r.screen == Game && !r.isGameOver && Inv(r)
            && |r.rewards| == RewardCount && r.level == s.level
            && (Stored(s.store) != [] ==>
                  r.player == Last(Stored(s.store)).position && r.score == Last(Stored(s.store)).score)
            && (Stored(s.store) == [] ==> r.player == s.player && r.score == s.score)
  {
  }

  /** G anywhere but on the game-over screen does nothing. */
  lemma RestartOnlyFromEnde(cfg: Config, s: GameState, date: string, rand: nat -> nat)
    requires Valid(cfg) && s.screen != Ende
    ensures HandleKey(cfg, s, G, date, rand) == s
  {
  }
}
