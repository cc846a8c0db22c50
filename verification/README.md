# Space Game, modelled in Dafny

This project models the game logic of `spacegame.cpp`, a small SFML arcade game.
The player steers a UFO with the arrow keys inside a rectangular play field.
Obstacles ("planets") and rewards ("comets") drift from right to left and re-enter
at the right edge at a random height. Touching an obstacle costs a point, with a
shared 500 ms cooldown, and a score below zero ends the game. Touching a reward
earns a point and removes it. Keys switch screens (play, game over `Ende`, menu
`Los`), toggle help and pause, change level, and save or load the game history
in a JSON file.

The model keeps the whole session in one immutable value, `Session.GameState`.
Every part of the main loop is a pure function of it:

- `Keys.HandleKey` handles one key press.
- `Keys.HandleEvents` handles one frame's events.
- `GameLoop.Simulate` is the simulation step.
- `GameLoop.Frame` is one loop iteration.
- `GameLoop.Run` is a sequence of frames.
- `GameLoop.Initial` is the state `main` builds before the loop.

Everything outside the program enters as a parameter:

- the events and the held arrow keys;
- the frame time `dt` in seconds;
- the millisecond clock reading `now`;
- the formatted date of a new record;
- the `rand()` stream, a function `rand: nat -> nat` together with a draw counter in the state;
- the save file's contents, an `Option<seq<Record>>`.

Modules:

| file | module | models |
|---|---|---|
| `wrappers.dfy` | `Wrappers` | `Option` |
| `geometry.dfy` | `Geometry` | vectors, rectangles, the positive-area overlap test, `static_cast<int>` (truncation toward zero), `rand() % n` |
| `player.dfy` | `Player` | `Ufo::update`: steering, then the four clamps |
| `drift.dfy` | `Drifters` | `Obstacle::update` and `Reward::update` (identical apart from speed and sprite) |
| `levels.dfy` | `LevelTable` | the level table, `initializeObstacles`, `initializeRewards`, the level cycle |
| `save_store.dfy` | `SaveStore` | `saveScoreToJson`, `loadScoreFromJson` |
| `session.dfy` | `Session` | the game state, `ScreenManager` screens, `Interfejs` flags, the level invariant |
| `collisions.dfy` | `Collisions` | the obstacle loop with its static collision clock, and the reward erase loop |
| `keys.dfy` | `Keys` | the key dispatch chain and the event loop |
| `game_loop.dfy` | `GameLoop` | start-up, one frame, a run of frames |

Behaviour the model follows from the code, where a reading of the game's design
might suggest otherwise:

- The collision clock is a function-local `static`. It is created at the first contact ever, so that contact costs nothing. A later contact costs a point only when the clock shows strictly more than 500 ms, and then restarts the clock. A contact within the 500 ms leaves the clock running.
- The game-over check happens inside the obstacle loop. The remaining obstacles still move in that frame, and the reward pass still runs and still scores.
- A drifter re-enters at a height in `[top, top + |int(height - h)|)`. The C++ remainder of the non-negative `rand()` is never negative and stays below the divisor's absolute value, so a negative divisor, from a sprite taller than the field, still gives a non-empty range. The remainder is undefined when that divisor is 0, so the model requires it to be non-zero (`Session.Valid`).
- A spawned drifter's height is drawn from `[top, top + int(height))`, so its sprite can stick out below the field.
- M goes from `Los` to `Game` and from every other screen, `Ende` included, to `Los`. After a game over, M therefore leaves `Ende` with the game-over flag still set. G acts only on `Ende`, so the simulation never runs again in that session (`GameLoop.MenuAfterGameOverLatches`).
- Return, F1, S and F act on every screen.
- Every save appends the whole in-memory list to the history already in the file. Saving twice therefore stores the first list twice (`Keys.SaveTwiceDuplicates`).
- Confirming the exit saves twice: once in the Escape branch and once after the event loop (`GameLoop.ExitSavesTwice`).
- The game-over save writes the list without adding a record.
- A readable file without a `games` array still clears the in-memory list, and leaves the position and score alone.

One assumption about SFML, whose source is not part of this model: `sf::FloatRect::intersects` is taken to mean a positive-area intersection, so boxes that only share an edge do not collide (`Geometry.Overlaps`).

## Model

| member | source | states |
|---|---|---|
| Geometry.Trunc | spacegame.cpp:355 | `static_cast<int>` of a float truncates toward zero: the result is within one unit of the argument, on the side of zero |
| Geometry.RandMod | spacegame.cpp:618 | `rand() % n` with a non-negative draw lies between 0 and the absolute value of `n` (excluded), and is the draw itself when the draw is below that value |
| Player.Steer | spacegame.cpp:265-276 | each held arrow key moves the craft by `speed * dt` on its axis; opposite keys cancel |
| Player.Clamp | spacegame.cpp:278-290 | the low clamp, then the high clamp, per axis: the position is clamped into the field when the sprite fits; when it does not fit, the high edge wins; a position already inside is unchanged |
| Player.Update | spacegame.cpp:264-293 | after steering at 200 px/s and clamping, a sprite that fits is inside the field; a steered position already inside is kept exactly |
| Player.ClampIdempotent | spacegame.cpp:278-290 | clamping twice is the same as clamping once |
| Drifters.Drift | spacegame.cpp:347-359 | the drifter keeps its speed and moves left by `speed * dt`; once fully past the left edge it re-enters at the right edge at a height in `[top, top + |int(height - h)|)`, which keeps the sprite inside the field when that range is positive; moving left never takes it past the re-entry column |
| Drifters.Step | spacegame.cpp:350-356 | one update inside a pass draws `rand()` exactly when the drifter wraps: the draw counter then advances by one and the new height comes from the next value of the stream; otherwise no value is drawn |
| Drifters.DriftAll | spacegame.cpp:765-766 | the update loop keeps the number of drifters and consumes `rand()` exactly once per drifter that wraps |
| Drifters.DriftAllMoves | spacegame.cpp:765-766 | each drifter of the result is what one update makes of the drifter at the same index |
| Drifters.DriftNeverPassesEntry | spacegame.cpp:347-359 | over any number of updates with non-negative frame times, a drifter that starts no further right than the re-entry column stays there |
| LevelTable.NextLevel | spacegame.cpp:716 | Return advances the level index by one and wraps from the last level to the first |
| LevelTable.LevelCycle | spacegame.cpp:716 | three advances return to the starting level (0 → 1 → 2 → 0) |
| LevelTable.Spawn | spacegame.cpp:615-622 | spawning `n` drifters produces `n`, consumes two draws each (x, then y), and places the k-th at the k-th draw pair |
| LevelTable.SpawnInArea | spacegame.cpp:617-620 | every spawned drifter has the requested speed and a position in `[left, left + int(width)) × [top, top + int(height))` |
| LevelTable.InitObstacles | spacegame.cpp:615-622 | the level's number of obstacles, all at the level's speed |
| LevelTable.InitRewards | spacegame.cpp:627-634 | three rewards, all at half the level's obstacle speed |
| SaveStore.Save | spacegame.cpp:25-54 | the file afterwards holds the history it had (none if unreadable), followed by the whole list |
| SaveStore.Load | spacegame.cpp:62-98 | an unreadable file changes nothing; otherwise the list becomes the file's history, and the last record, if there is one, supplies the position and the score |
| SaveStore.SaveThenLoad | spacegame.cpp:25-98 | loading after saving a list that ends in a record restores that record's position and score |
| SaveStore.LoadIdempotent | spacegame.cpp:62-98 | loading twice from the same file is the same as loading once |
| Collisions.Hit | spacegame.cpp:768-779 | one contact: the first creates the timer; later ones cost exactly one point when the timer shows more than 500 ms, and restart it; a score below zero switches to `Ende`, sets game over and saves the list |
| Collisions.HitIdempotent | spacegame.cpp:769-772 | a second contact at the same clock reading changes nothing |
| Collisions.HitIfCompose | spacegame.cpp:765-781 | contacts with two obstacles in the same frame act like one contact |
| Collisions.ObstacleLoop | spacegame.cpp:765-781 | the obstacle loop as written, moving each obstacle and then testing it against the craft; it has no contract of its own, and `Collisions.ObstacleLoopHitsOnce` states what it computes |
| Collisions.ObstacleLoopHitsOnce | spacegame.cpp:765-781 | the move-then-test loop over the obstacles equals moving them all and applying a single contact when any moved obstacle touches the craft |
| Collisions.ObstaclePass | spacegame.cpp:765-781 | the obstacle count is unchanged; at most one point is lost per frame, and one is lost exactly when a moved obstacle touches the craft and the timer shows more than 500 ms; the first contact only creates the timer; a contact restarts the timer exactly when it was missing or showed more than 500 ms; no contact leaves the timer alone; game over is set exactly when the lost point takes the score below zero |
| Collisions.Survivors | spacegame.cpp:784-793 | the reference filter, keeping in order the drifters that do not touch the craft; it has no contract of its own, and `Collisions.SurvivorsSpec` states what it keeps |
| Collisions.SurvivorsSpec | spacegame.cpp:784-793 | the surviving rewards are an order-preserving selection of the moved ones, holding exactly those that do not touch the craft, each as many times as it occurs among the moved rewards |
| Collisions.RewardLoop | spacegame.cpp:784-793 | the reward loop as written, moving each reward and erasing it with a point when it touches the craft; it has no contract of its own, and `Collisions.RewardLoopFilters` states what it computes |
| Collisions.RewardLoopFilters | spacegame.cpp:784-793 | the erase-while-iterating loop equals moving every reward, then filtering out the touching ones and scoring one point per erased reward |
| Collisions.RewardPass | spacegame.cpp:784-793 | touching rewards are removed and the others kept, in order; the score rises by the number removed; no remaining reward touches the craft; nothing else changes |
| Session.ToggleHelp | spacegame.cpp:213 | the help flag is flipped and nothing else changes |
| Session.TogglePause | spacegame.cpp:214 | the pause flag is flipped and nothing else changes |
| Session.ResumeGame | spacegame.cpp:215 | the pause flag is off afterwards, whatever it was, and nothing else changes |
| Session.RequestExit | spacegame.cpp:216 | the exit flag is on afterwards, whatever it was, and nothing else changes |
| Session.SwitchTo | spacegame.cpp:531-533 | the given screen is shown and nothing else changes |
| Keys.Reload | spacegame.cpp:722-729 | F changes only the list, position and score, and changes the position or the score only when the file holds a record |
| Keys.Reinitialize | spacegame.cpp:615-635 | respawning produces the current level's number of obstacles at its speed and three rewards at half that speed, and changes nothing else |
| Keys.SaveGame | spacegame.cpp:731-745 | S appends one record of the current position, score and date, and the file then holds its old history followed by the new list |
| Keys.Restart | spacegame.cpp:663-679 | G on `Ende` clears game over and returns to play, changes only the list, position, score and drifters besides, keeps the level invariant, and changes the score or position only from a file holding a record |
| Keys.AdvanceLevel | spacegame.cpp:715-721 | Return moves to the next level in the cycle, makes its catalogue entry current, and leaves a state satisfying the level invariant, changing nothing but the level and the drifters |
| Keys.HandleKey | spacegame.cpp:653-746 | the key dispatch chain, one branch per key; it has no contract of its own, and `Keys.KeyKeepsInv`, `Keys.KeyFlags`, `Keys.KeyGameOver` and `Keys.KeyData` state what every key press does |
| Keys.KeyKeepsInv | spacegame.cpp:653-746 | every key press keeps the level invariant and a latched game over |
| Keys.KeyFlags | spacegame.cpp:653-746 | no key press closes the window or touches the collision timer, and only Escape during pause requests the exit |
| Keys.KeyGameOver | spacegame.cpp:653-746 | only G on `Ende` clears game over, and no key sets it |
| Keys.KeyData | spacegame.cpp:653-746 | only S and Escape during pause write the file; only F, or G on `Ende`, change the score or the position, and only when the file holds a record |
| Keys.HandleEvents | spacegame.cpp:648-747 | the frame's events keep the invariant, the latch and the collision timer; the window closes exactly when a close event arrives |
| Keys.HelpKeyInvolution | spacegame.cpp:711-713 | F1 flips the help flag and changes nothing else, on every screen, so F1 twice is no change |
| Keys.MenuKey | spacegame.cpp:655-661 | M changes only the screen: `Los` becomes `Game` and every other screen, `Ende` included, becomes `Los`; so M twice is no change away from `Ende` |
| Keys.EscapeKey | spacegame.cpp:680-703 | Escape outside a pause only sets the pause flag; during a pause it appends a record of the position and score, saves the list and requests the exit, and changes nothing else |
| Keys.PauseThenResume | spacegame.cpp:680-709 | Escape, then Shift, from an unpaused game is no change |
| Keys.ShiftOnlyResumes | spacegame.cpp:705-709 | Shift only clears the pause flag |
| Keys.EscapeTwiceExits | spacegame.cpp:681-703 | the second Escape appends a record of the position and score, saves the list and requests the exit |
| Keys.SaveThenLoadKeys | spacegame.cpp:722-745 | S then F restores the position and score just saved |
| Keys.SaveTwiceDuplicates | spacegame.cpp:731-745 | two saves in a row store the first list twice, then the second record |
| Keys.LevelAdvance | spacegame.cpp:715-721 | Return moves to the next level in the cycle and respawns its obstacles at its speed and three rewards at half that speed; screen, score and position are kept |
| Keys.SecondToThirdLevel | spacegame.cpp:605-609 | from the second level, Return gives ten obstacles at 215 px/s and three rewards at 107.5 px/s |
| Keys.RestartFromEnde | spacegame.cpp:663-679 | G on `Ende` clears game over, reloads the last record if any, respawns the current level and returns to play |
| Keys.RestartOnlyFromEnde | spacegame.cpp:663-664 | G on any other screen does nothing |
| GameLoop.Initial | spacegame.cpp:587-635 | the start state is on the play screen at the first level, with five obstacles and three rewards; with no stored record the craft is 25 px up and left of the field's centre with score 0, otherwise the last record's position and score |
| GameLoop.FreshStart | spacegame.cpp:589-597 | with an unreadable file the game starts on the play screen at score 0 with the craft 25 px up and left of the field's centre, and simulates |
| GameLoop.DriftAllKeepsSpeed | spacegame.cpp:347-359 | drifting never changes a drifter's speed |
| GameLoop.Simulate | spacegame.cpp:759-797 | the craft is updated, the obstacle count is kept, and the score is the old score plus the rewards caught, minus at most one; game over is set exactly when that lost point takes the score below zero, and then the screen is `Ende` and the list is saved; no remaining reward touches the craft; nothing but the craft, the drifters, the score, the timer, the screen, the game-over flag, the file and the count of random draws changes |
| GameLoop.SimulateKeepsInv | spacegame.cpp:759-797 | a simulated frame keeps the level invariant: obstacles keep their number and speed, and rewards only become fewer and keep their speed |
| GameLoop.Settle | spacegame.cpp:648-753 | after the events and the exit check, the invariant and the latch hold, and an exit request has closed the window |
| GameLoop.Frame | spacegame.cpp:645-798 | one iteration keeps the invariant, keeps a latched game over and its timer, closes the window on an exit request, and changes nothing when there are no events, no exit request and the simulation is not running |
| GameLoop.Run | spacegame.cpp:645-804 | any run of frames keeps the invariant, and once game over is latched (set, with the screen no longer `Ende`) it stays latched and the collision timer never changes again |
| GameLoop.MenuAfterGameOverLatches | spacegame.cpp:655-664 | M from `Ende` after game over reaches the menu with game over still set, and no later frame ever simulates |
| GameLoop.ExitSavesTwice | spacegame.cpp:681-753 | Escape during pause writes the history, then the list with the new record, then that list again, and closes the window |

## Left out

- Rendering, textures, fonts, texts and background colours (`Interfejs::draw`, `ScreenManager::draw`, `updateTexts`, `setText`, `showGameOver`, `centerText`): they affect only what is drawn. The level's background colour is therefore not part of `LevelTable.Level`.
- The display-only `Interfejs::isGameOver` flag: nothing ever sets it. The game-over flag of the model is the `isGameOver` local of `main`.
- Asset-loading failures (`throw` on a missing font, background or UFO texture) and the catch-all in `main`: they stop the program before or outside the modelled logic.
- JSON text: the file is modelled by its `games` history. A file that cannot be opened and a file that cannot be parsed behave the same, so both are `None`. A missing `games` key reads as an empty history. Malformed entries, whose conversion throws, and the other keys of the file are not modelled.
- A failure to open the file for writing, which leaves the file unchanged: `SaveStore.Save` always writes.
- SFML's window, event queue, keyboard polling and clocks: they become the `Input` of a frame. Events after a close event are dropped, since polling stops once the window is closed.
- `sf::FloatRect` bounds and sprite sizes: the field and the sprite sizes are the parameters in `Session.Config`. The window is 1200×750 and the field rectangle 1200×650 at (0, 50). Whether the reported bounds include the 1 px outline depends on SFML, so they are not fixed.
- `float` rounding and the 32-bit range of `int`: coordinates are exact reals and the score an unbounded integer.
- `rand()` seeding and distribution: `srand(time)` is replaced by an arbitrary stream of non-negative values.
- Console messages on `std::cout` and `std::cerr`.
- Drifters.DriftNeverPassesEntry: is stated only for non-negative speeds and frame times, because every level speed is positive and frame times are elapsed times.
- Player.Update: the "stays inside the field" bound holds only when the sprite fits the field; for a larger sprite, `Player.Clamp` states where the high-edge clamp puts it.
