# basketshot: the shot-resolution state machine, in Dafny

A model of the game logic in `js/app.js` of the basketball-shot browser game.
A ball is held at a launch point by an elastic. The player drags it and lets go.
A goal is scored when the ball enters the basket bar from above and leaves it
below. A floor contact in free flight is a miss. Goals and misses drive the
session counters: shots left, level and best level. These counters are saved in
the browser's storage whenever the menu is shown.

The project has three modules:

- `BasketModel` (`model.dfy`) holds the whole game state as one value, `Game`.
  Each handler of the page has a pure function over it:
  - `Launch` for the per-tick hook;
  - `StartAll` and `EndAll` for the collision handlers;
  - `Goal` for `setGoal` and `Out` for `setOut`;
  - `CelebrationEnd` for the 2000 ms continuation;
  - `Play` for the play button;
  - `Load`, `Save` and `ShowMenu` for start-up and the persisted values.

  `Step` and `Run` apply events one at a time. `Inv` is an invariant that holds
  at a first start and that every event keeps.
- `BasketMachine` (`machine.dfy`) is the page as it runs. The class `Basket`
  holds the module-level counters and the round flags as fields, and its
  methods update them in place, as the handlers do. Each method is proved to
  change the state exactly as the matching `BasketModel` function says. The two
  collision handlers loop over the pairs of one notification, with invariants.
- `BasketProperties` (`properties.dfy`) holds the lemmas about goals, misses,
  celebration, launch and persistence, over one event and over any run of events.

Screen y grows downward, so "the ball is above the bar" is `ballY < barY`.
Positions are abstract reals that the physics engine supplies with each event.
The distance test "more than 10 units from the launch point" is stated on the
squared distance (`> 100`). `FarIffMoreThanTen` shows the two tests agree.

Where the code does not do what the game's own text promises, the model follows the code:

- The in-game hint (js/app.js:25) says "Goal the first shot to get 5 more.",
  but `shotsCounter` is set to 0 by `initialize` and never raised (js/app.js:85).
  So the five-shot reward of `setGoal` can never be paid, and every goal in a
  state satisfying `Inv` is worth one shot (`ReachableRewardIsOne`,
  `FromDefaultStart`). A fresh session with a goal on the first shot ends with
  11 shots, not the 5 extra the hint promises (`FirstShotGoalScenario`).

Other behaviour of the code that the model keeps:

- The session-reset branch of `setOut` is not guarded by the celebration flag.
  Only the decrement and the re-arm are guarded. `Out` models this. Under `Inv`
  the reset never happens during a celebration (`ResetOnlyAtZero`).
- A second goal can be scored during a celebration, before the round is rebuilt.
  Each goal schedules its own continuation, so the model counts the scheduled
  continuations in `pending`.
- Within one collision-end notification, a miss that re-arms moves the ball to
  the launch point. Pairs handled after it see the ball there (`NextY`).

## Model

| member | source | states |
|---|---|---|
| BasketModel.ObstacleCount | js/app.js:202 | the obstacle count is the level capped at 10: never above 10 or the level, and equal to one of them |
| BasketModel.ObstaclesBuilt | js/app.js:202-220 | the building loop adds between 0 and 10 obstacles: exactly the capped level from level 1 on, none below |
| BasketModel.Save | js/app.js:366-370 | saving stores exactly shots, level and best level, and changes nothing else |
| BasketModel.ShowMenu | js/app.js:347-354 | showing the menu saves the three values and shows the menu, nothing else |
| BasketModel.Load | js/app.js:4-9 | start-up takes each persisted value or its default (10 shots, level 1, best 1), with no celebration or pending continuation; the menu is shown and the values are saved |
| BasketModel.Play | js/app.js:18-23 | the play button rebuilds the round (elastic attached, entry flag and shotsCounter cleared) and hides the menu; the round gets the capped number of obstacles for the current level; the session counters are untouched |
| BasketModel.Launch | js/app.js:225-233 | the elastic is detached exactly when the button is released and the ball is more than 10 units from the launch point; nothing else changes |
| BasketModel.StartAll | js/app.js:252-266 | after a collision-start the entry flag is set exactly when it was already set, or a ball/bar pair met the ball above the bar; nothing else changes |
| BasketModel.Goal | js/app.js:293-313 | a goal pays 5 shots when shotsCounter is 1 and 1 otherwise, raises the level by one, keeps the best level at least the level and never lowers it, and starts a celebration with one more continuation scheduled; nothing else changes |
| BasketModel.Out | js/app.js:315-338 | a miss during a celebration with shots left changes nothing; outside one with more than one shot, it spends exactly one and re-arms; when no shot is left it resets to 10 shots at level 1, keeps the best level, shows the menu and saves (1, best, 10), and changes nothing else |
| BasketModel.NewRound | js/app.js:82-220 | rebuilding a round clears the entry flag and shotsCounter, attaches the elastic and builds the capped number of obstacles for the current level; nothing else changes |
| BasketModel.EndOne | js/app.js:271-289 | one pair of a collision-end: an unrelated pair, or a floor pair while the elastic holds the ball, changes nothing; a floor pair in free flight is a miss; a bar pair always clears the entry flag; when the flag was set and the ball is below the bar the result is exactly the goal's (reward, level up, best level, celebration), otherwise only the flag changes; the best level never falls |
| BasketModel.NextY | js/app.js:322-329 | the ball's y for the next pair of a collision-end: the launch point's y after a floor pair that re-armed the ball (always so for a free-flight miss outside a celebration with more than one shot), the ball's own y otherwise |
| BasketModel.EndAll | js/app.js:268-291 | after a collision-end the entry flag is clear whenever a ball/bar pair was in it (goal or not) and unchanged otherwise; the best level never falls |
| BasketModel.CelebrationEnd | js/app.js:308-312 | the continuation rebuilds the round (elastic attached, entry flag and shotsCounter cleared) and then ends the celebration; the round gets the capped number of obstacles for the level reached; the counters are unchanged |
| BasketProperties.FarIffMoreThanTen | js/app.js:415-417 | for d the distance, the squared-distance test holds exactly when d > 10 |
| BasketProperties.EndAllKeepsAttached | js/app.js:268-291 | no collision-end detaches the elastic |
| BasketProperties.EndAllAttachesOnlyOnFloor | js/app.js:286-288 | a collision-end without a ball/floor pair never re-attaches a detached elastic |
| BasketProperties.DetachOnlyByLaunch | js/app.js:225-233 | the only event that detaches the elastic is a tick with the button released and the ball more than 10 units away |
| BasketProperties.AttachOnlyByRearmOrRebuild | js/app.js:323-329 | a detached elastic is attached again only by a ball/floor collision-end, a celebration end or the play button |
| BasketProperties.NoGoalWithoutTopEntry | js/app.js:278-285 | with the entry flag clear, no collision-end scores: no celebration starts and the flag stays clear |
| BasketProperties.StartBelowNeverScores | js/app.js:259-264 | a collision-start with the ball at or below the bar leads to no goal at the later collision-end, wherever the ball leaves |
| BasketProperties.TopEntryThenBottomExitScores | js/app.js:278-284 | entry from above followed by exit below is exactly a goal with the flag cleared: 5 shots if shotsCounter is 1 else 1, level up by one, a celebration scheduled |
| BasketProperties.BarEndScoresExactly | js/app.js:278-285 | a ball/bar collision-end scores exactly when the flag is set and the ball is below the bar, and always clears the flag |
| BasketProperties.ReachableRewardIsOne | js/app.js:295-299 | in every state satisfying the invariant (so in every state reached from a first start) a goal pays exactly one shot |
| BasketProperties.CelebrationSuppressesMisses | js/app.js:319-329 | during a celebration, a collision-end without a ball/bar pair changes nothing: no shot spent, no re-arm |
| BasketProperties.CelebrationNeverSpends | js/app.js:307-329 | during a celebration no collision-end lowers the shots or the level, and the celebration goes on |
| BasketProperties.FloorWhileTetheredIsInert | js/app.js:286-288 | a floor contact while the elastic holds the ball changes nothing |
| BasketProperties.MissInFreeFlight | js/app.js:315-338 | outside a celebration a miss spends exactly one shot and re-arms; on the last shot it resets to 10 shots at level 1, keeps the best level, shows the menu and saves |
| BasketProperties.ResetOnlyAtZero | js/app.js:319-330 | in a state satisfying the invariant the shots after a miss are never negative, and reach zero only on the last shot outside a celebration |
| BasketProperties.StepPreservesInv | js/app.js:293-338 | every event keeps best level >= level >= 1, at least one shot, shotsCounter zero, and a continuation scheduled for every celebration |
| BasketProperties.RunPreservesInv | js/app.js:293-338 | every run of events from a state satisfying the invariant keeps it |
| BasketProperties.MaxLevelNeverDecreases | js/app.js:300-303 | over any run of events the best level never falls, including through a session reset |
| BasketProperties.DefaultStart | js/app.js:4-9 | with nothing persisted the game starts with 10 shots at level 1, best level 1, saves these values, and satisfies the invariant |
| BasketProperties.ReloadRestoresProgress | js/app.js:366-370 | loading the saved values gives back exactly the saved progress, and a state satisfying the invariant again if the saving state did (for numeric counters) |
| BasketProperties.FromDefaultStart | js/app.js:85 | after any run from a first start, a goal pays one shot and the best level is at least the level (for numeric counters) |
| BasketProperties.FirstShotGoalScenario | js/app.js:293-303 | a fresh session with a goal on the first launch ends with 11 shots, level 2, best level 2, celebrating |
| BasketProperties.LastShotMissedScenario | js/app.js:330-337 | missing the last shot at level 4 (best 6) resets to 10 shots at level 1, keeps best 6, shows the menu and saves |
| BasketMachine.Basket.constructor | js/app.js:4-9 | the page starts in the state `Load` gives |
| BasketMachine.Basket.Save | js/app.js:366-370 | the saved values become the live ones, as `Save` |
| BasketMachine.Basket.ShowMenu | js/app.js:347-354 | as `ShowMenu` |
| BasketMachine.Basket.Initialize | js/app.js:82-220 | rebuilding a round clears the round flags, attaches the elastic and adds the obstacles in a loop, as `NewRound` |
| BasketMachine.Basket.Play | js/app.js:18-23 | as `Play` |
| BasketMachine.Basket.AfterUpdate | js/app.js:225-233 | the per-tick hook moves the state as `Launch` |
| BasketMachine.Basket.CollisionStart | js/app.js:252-266 | the loop over the pairs moves the state as `StartAll` |
| BasketMachine.Basket.CollisionEnd | js/app.js:268-291 | the loop over the pairs moves the state as `EndAll`, including a re-arm moving the ball mid-loop |
| BasketMachine.Basket.SetGoal | js/app.js:293-313 | as `Goal` |
| BasketMachine.Basket.SetOut | js/app.js:315-338 | as `Out` |
| BasketMachine.Basket.CelebrationEnd | js/app.js:308-312 | as `CelebrationEnd` |

## Left out

- Matter.js scene building, the engine, renderer, runner, mouse constraint and viewport fit (js/app.js:49-80, 87-200, 235-246, 341-344) are foreign library calls. The model sees only the ball's y, the bar's y, the kind of each collision pair, the mouse button and the ball's offset from the launch point on each tick, and whether the elastic holds the ball.
- Basket and obstacle placement, the hint choice and `Math.random` (js/app.js:137-148, 205-220, 404, 407-413) are randomness. The model keeps only the number of obstacles.
- `Math.sqrt` in the distance (js/app.js:415-417) is replaced by squared distance. `FarIffMoreThanTen` relates the two.
- Timers (js/app.js:308, 351, 374, 391): the 2000 ms celebration end is the explicit event `CelebrationTimeout`. The 400 ms menu fade is treated as immediate.
- DOM and menu work are presentation only. This covers the overlay, the background ball, `hideMenu` styling and `updateMenuFields` text (js/app.js:304-306, 347-405). Note that `updateMenuFields` runs once per pair inside the collision-end loop.
- `localStorage` is modelled as optional integers, and a missing value takes its default. The stored values are really strings, and the model treats every counter as an integer. This divergence is reachable: from the second visit on, `numberOfShots` is loaded as the string "10" (js/app.js:5-6), saved by the start-up `showMenu` (js/app.js:419). A goal before the first miss then runs `numberOfShots += 1` (js/app.js:298), which concatenates to "101", and the next `numberOfShots--` turns it into the number 100. The `+= 5` branch would concatenate too. `ReloadRestoresProgress` and `FromDefaultStart` hold only for numeric counters.
- Dead code is not modelled: `isOut`, `isStuckInterval` with its `clearInterval`, the no-op `removeEventListener` and the `console.log` calls (js/app.js:84, 223, 317-318, 333, 249).
- Each `initialize` registers new handlers and never removes the old ones (js/app.js:225, 252, 268). The old handlers test against bodies that are no longer in the world, so they never change the game state. They still have effects outside it: each old collision-end handler calls `updateMenuFields` once per pair (js/app.js:289), and each old tick handler can null its own old elastic (js/app.js:231). The model keeps one set of handlers.
- Events before the first press of the play button are not modelled, because no round exists then. `Step` accepts them, but the page never delivers them.
- `Math.floor(level / 1)` is the level itself, since the model's level is an integer.
