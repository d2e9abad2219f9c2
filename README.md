# Pacman clone: a verified model of the game core

This project models the game logic of a browser Pacman clone and proves properties of it. The logic covered:

- **The board.** A fixed 20 by 20 maze (`MAZE_LAYOUT`) is parsed into dots, power pellets and the start cells of Pacman and four ghosts.
- **Movement.** Each body (`Entity`) steps along one of four headings, and only when the traversal test `canMove` accepts the target. The test samples five points of the body's footprint.
- **Pacman.** He buffers a turn and takes it at an intersection. His mouth animates, and eating a power pellet starts power mode for 8000 ms.
- **Ghosts.** Each ghost alternates 7 s of scatter and 20 s of chase. It heads greedily for its target, or picks a random legal heading while scared, and never reverses.
- **The engine.** The engine runs a state machine over READY, PLAYING, PAUSED, LEVEL_COMPLETE and GAME_OVER. Each frame moves Pacman, then every ghost, then resolves collisions:
  - dots give 10 points and power pellets 50;
  - a scared ghost gives 200 points and is sent home;
  - any other ghost costs a life;
  - a cleared board advances the level.
- **Touch controls.** A swipe is classified into a heading. The game component turns a heading into an arrow key for the keyboard handler.

Modules, one per source file:

| module | file | models |
|---|---|---|
| `Wrappers` | wrappers.dfy | `Option` and `Result` |
| `GameConstants` | constants.dfy | `src/game/constants/GameConstants.ts` |
| `Entities` | entity.dfy | `src/game/classes/Entity.ts` |
| `Player` | pacman.dfy | `src/game/classes/Pacman.ts` |
| `Ghosts` | ghost.dfy | `src/game/classes/Ghost.ts` |
| `Maze` | maze.dfy | the query and parsing side of `src/game/classes/GameEngine.ts` (`canMove`, `isAtIntersection`, the layout scan of `initializeMaze`) |
| `Engine` | engine.dfy | the stateful side of `src/game/classes/GameEngine.ts` |
| `Touch` | mobile.dfy | the swipe logic and visibility flag of `src/game/utils/MobileControls.ts` |
| `GameComponent` | game_component.dfy | the heading-to-key callback in `src/game/components/Game.tsx` |

Modelling decisions:

- **Headings.** A heading is a four-valued datatype with exact unit offsets `Dx`/`Dy`, in place of `Math.cos`/`Math.sin` of the angle. The angle is still available as `Degrees()`, and `Opposite()` is "(angle + 180) % 360".
- **Numbers.** Coordinates are `real` and cell lookup uses `.Floor`. Every distance test compares squared distances (`DistanceBelow`, `DistanceAbove`). `DistanceComparisons` proves this agrees with comparing the square root.
- **Composition instead of inheritance.** Pacman and a ghost each own a `body: Entity`, where the TypeScript classes extend `Entity`.
- **The traversal callback.** The engine binds the traversal test once as a function value, `canMove`. It is handed to every move, as the source hands over `this.canMove.bind(this)`.
- **Time is explicit.**
  - The engine has a clock `now`.
  - A ghost's scatter phase is decided by `(now - cycleStart) % 27000 < 7000`.
  - Power mode is a deadline (`powerModeEndTime`) that `AdvanceClock` fires.
  - The 1000 ms respawn delay and the 2000 ms next-level delay are counters of pending continuations. `FireRespawnTimer` and `FireLevelTimer` run them.
- **Randomness.** `Math.random()` is a parameter `roll` in [0, 1). `Tick` takes one per ghost.
- **Construction.** The engine's constructor is split in two. The constructor sets the fields, and `NewGame` creates the engine and then parses the maze, as the source constructor's last statement does.
- **The collision filter.** The power-pellet filter is modelled as one pass (`Filter`) followed by the effect of each pellet eaten (`PowerUp`). The source applies each effect inside the filter callback. The results agree because Pacman does not move during the filter, so which pellets are eaten does not depend on the effects.
- **Parse failures.** The two error paths of `initializeMaze` (a missing 'P', a missing ghost marker) are the `Failure` results of `ResolveStarts`. On the game's own layout they cannot occur (`MazeLayoutParses`), so `InitializeMaze` never fails.

Behaviour of the source that the model keeps as written:

- `unScare` and `reset` set a ghost's speed to 3 whatever the level. After power mode or a death, ghosts therefore move at 3 rather than at the level's speed.
- The turn check in `updatePacmanDirection` tests a point one unit along the new heading, not one step of Pacman's speed.
- Lives are decremented without a floor. When Pacman loses his last life, GAME_OVER resets nothing, so a second unscared ghost touching him in the same frame takes the lives to -1. With lives to spare, the first death sends Pacman and every ghost home before the next ghost is tested, so that frame costs one life.
- The board-cleared check runs after the ghost contacts, so a frame that ends in GAME_OVER and clears the board ends in LEVEL_COMPLETE.
- The respawn continuation sets PLAYING whatever the state is when it fires.
- `reset` clears neither the buffered direction nor pending continuations.

## Model

| member | source | states |
|---|---|---|
| GameConstants.Direction.Opposite | src/game/constants/GameConstants.ts:9-14 | the opposite heading is the one whose angle is (angle + 180) % 360 |
| GameConstants.OfDegrees | src/game/constants/GameConstants.ts:9-14 | each of the four angle values 0, 90, 180, 270 names the heading with that angle |
| GameConstants.OppositePairs | src/game/classes/Ghost.ts:142 | adding 180 degrees pairs right with left and down with up, never fixes a heading, is an involution and negates the unit offsets |
| GameConstants.DirectionAngles | src/game/constants/GameConstants.ts:9-14 | the heading values are exactly the four angles, one per heading, and each unit offset has length 1 |
| GameConstants.MazeShape | src/game/constants/GameConstants.ts:39-60 | the maze has 20 rows of 20 cells each |
| GameConstants.PacmanMarker | src/game/constants/GameConstants.ts:39-60 | 'P' occurs exactly once, in row 1, column 1 |
| GameConstants.GhostMarkers | src/game/constants/GameConstants.ts:39-60 | 'B', 'I', 'K' and 'C' each occur exactly once, in columns 11 to 14 of row 8 |
| GameConstants.LevelTable | src/game/constants/GameConstants.ts:62-68 | five rows, row i is level i + 1, and ghost speed strictly increases with the level |
| Entities.DistanceComparisons | src/game/classes/Entity.ts:39-41 | comparing a squared distance with a squared bound decides "distance < bound" and "distance > bound" exactly |
| Entities.StepIsCardinal | src/game/classes/Entity.ts:23-25 | a step changes exactly one coordinate, by exactly the speed, with the sign of the heading |
| Entities.Entity.constructor | src/game/classes/Entity.ts:11-17 | a new body has the given position, speed and size and faces right |
| Entities.Entity.Move | src/game/classes/Entity.ts:22-31 | the position becomes the one-step target exactly when the callback accepts it; otherwise it stays; a position the callback accepted stays accepted |
| Entities.Entity.CollidesWith | src/game/classes/Entity.ts:36-42 | two bodies collide exactly when their squared distance is below the square of the mean size times the modifier |
| Entities.CollisionSymmetric | src/game/classes/Entity.ts:36-42 | collision does not depend on which body asks |
| Player.MouthStepKeepsWave | src/game/classes/Pacman.ts:27-37 | one frame keeps the mouth on the triangle wave: an even angle in [0, 50] hundredths, turning at both ends |
| Player.MouthStaysInRange | src/game/classes/Pacman.ts:16-37 | from the initial angle 0.2 opening, the mouth angle stays within [0, 0.5] after any number of frames |
| Player.Pacman.constructor | src/game/classes/Pacman.ts:14-22 | speed 5, facing right, mouth at 0.2 opening, not powered and no expiry pending |
| Player.Pacman.UpdateMouth | src/game/classes/Pacman.ts:27-37 | the angle moves by one step in the current direction, which turns to closing at or past 0.5 and to opening at or below 0; power state unchanged |
| Player.MouthStep | src/game/classes/Pacman.ts:27-37 | one frame adds one step in the current direction; at or past 0.5 the mouth turns to closing, at or below 0 to opening, and in between the direction is kept |
| Player.Pacman.ActivatePowerMode | src/game/classes/Pacman.ts:42-58 | powered, with the deadline replaced by now + duration (a pending one is cancelled, not extended) |
| Player.Pacman.ExpirePowerMode | src/game/classes/Pacman.ts:52-57 | the timer fires exactly when a deadline is pending and due; firing ends power mode and clears the deadline; otherwise nothing changes |
| Player.Pacman.Reset | src/game/classes/Pacman.ts:63-74 | back at (x, y) facing right, power mode off and any pending expiry cancelled; speed and mouth kept |
| Player.PowerRefreshScenario | src/game/classes/Pacman.ts:42-58 | a second pellet halfway through power mode keeps Pacman powered past the first deadline, power ends at the second, and the timer fires once |
| Player.ResetCancelsExpiry | src/game/classes/Pacman.ts:70-73 | after a reset a pending expiry never fires and Pacman stays unpowered |
| Ghosts.ScatterTargetsAreCorners | src/game/classes/Ghost.ts:37-51 | the four scatter targets are distinct corners of the 400 by 400 board |
| Ghosts.ScatterTarget | src/game/classes/Ghost.ts:37-51 | each type's scatter target lies on a corner of the 400 by 400 board, both coordinates 0 or 400 |
| Ghosts.InScatter | src/game/classes/Ghost.ts:56-70 | in the first 7000 ms after the cycle starts the ghost scatters; in the 20000 ms after that it chases |
| Ghosts.BehaviourCycle | src/game/classes/Ghost.ts:56-70 | a cycle scatters for its first 7000 ms, chases for the next 20000 ms, and repeats every 27000 ms |
| Ghosts.ChaseTarget | src/game/classes/Ghost.ts:90-126 | Blinky targets Pacman, Pinky 80 and Inky 40 units ahead of him along his heading, Clyde targets Pacman when farther than 8 body sizes and his corner otherwise |
| Ghosts.BestDirectionProperties | src/game/classes/Ghost.ts:136-167 | the greedy choice never reverses the current heading, and it is unique |
| Ghosts.ValidDirections | src/game/classes/Ghost.ts:172-190 | the random choice's pool holds exactly the legal non-reversing headings, never the reversal |
| Ghosts.CandidatesIn | src/game/classes/Ghost.ts:173-190 | the candidates among a list of headings are exactly its legal non-reversing members, and there are no more of them than headings |
| Ghosts.CandidatesInOrder | src/game/classes/Ghost.ts:173-190 | the candidates keep the order of the list they are taken from |
| Ghosts.ValidDirectionsInOrder | src/game/classes/Ghost.ts:174-194 | the random choice's pool is in right, down, left, up order, so the roll indexes the same pool the source builds |
| Ghosts.RandomIndex | src/game/classes/Ghost.ts:194 | floor(random * n) is a valid index into n candidates |
| Ghosts.Ghost.constructor | src/game/classes/Ghost.ts:18-32 | a new ghost is at its spawn point, speed 3, facing right, not scared, with its corner as scatter target and its cycle starting in scatter mode now |
| Ghosts.Ghost.ScatterMode | src/game/classes/Ghost.ts:56-70 | a ghost scatters for the first 7000 ms after its cycle starts and chases for the 20000 ms after that |
| Ghosts.Ghost.Target | src/game/classes/Ghost.ts:84-126 | in scatter mode the target is the ghost's corner; in chase mode Blinky targets Pacman, Pinky and Inky a point off Pacman on one axis of his heading, and Clyde either Pacman or his own corner |
| Ghosts.Ghost.CalculateNextMove | src/game/classes/Ghost.ts:75-131 | a scared ghost makes the random choice; otherwise it makes the greedy choice towards its scatter corner or chase target; it never reverses and does not move |
| Ghosts.Ghost.CalculateBestDirection | src/game/classes/Ghost.ts:136-167 | the new heading is a legal non-reversing one whose step is nearest the target, the first in right, down, left, up order among equals; the heading is kept when none is legal |
| Ghosts.Ghost.CalculateRandomMove | src/game/classes/Ghost.ts:172-196 | the new heading is the roll-selected member of the legal non-reversing headings, or unchanged when there is none; never the reversal |
| Ghosts.Ghost.Scare | src/game/classes/Ghost.ts:201-204 | scared at speed 2, position and heading unchanged |
| Ghosts.Ghost.UnScare | src/game/classes/Ghost.ts:209-212 | not scared, speed 3, position and heading unchanged |
| Ghosts.Ghost.Reset | src/game/classes/Ghost.ts:217-223 | back at the spawn point, facing right, not scared, speed 3 |
| Maze.MoveAllowed | src/game/classes/GameEngine.ts:327-356 | the loop over the five footprint points with early return answers true exactly when every point is inside the grid and not in a '#' cell |
| Maze.CanMoveInsideBoard | src/game/classes/GameEngine.ts:327-356 | a position that passes the traversal test keeps its whole footprint on the board: at least RADIUS (9) from every edge of the 400 by 400 canvas |
| Maze.CentreCanMove | src/game/classes/GameEngine.ts:327-356 | a cell centre passes the traversal test exactly when the cell is inside the grid and not a wall: spaces, items and start letters are open |
| Maze.SnapKeepsCanMove | src/game/classes/GameEngine.ts:185-189 | snapping a passable position to its cell centre keeps it passable |
| Maze.CentreIsIntersection | src/game/classes/GameEngine.ts:159-165 | a body exactly at a cell centre is at an intersection at any positive speed, and snapping leaves it in place |
| Maze.IntersectionSnapIsShort | src/game/classes/GameEngine.ts:159-165 | only a moving body is ever at an intersection, and there the snap to the cell centre is shorter than one step |
| Maze.CentresOfMembership | src/game/classes/GameEngine.ts:102-131 | a point is in the parsed list for a letter exactly when it is the centre of a cell holding that letter |
| Maze.ScanLayout | src/game/classes/GameEngine.ts:102-131 | the nested row and cell pass collects the dots and pellets in row-major order and, per start letter, the last cell holding it |
| Maze.Marker | src/game/classes/GameEngine.ts:117-129 | a ghost marker is never a wall, space, dot, pellet or Pacman's letter, so a cell is read as at most one thing |
| Maze.MarkersDistinct | src/game/classes/GameEngine.ts:117-129 | distinct ghost types have distinct marker letters ('K' for Pinky) |
| Maze.AbsorbItems | src/game/classes/GameEngine.ts:107-116 | visiting a '.' cell appends its centre to the dots, an 'o' cell to the pellets, and a 'P' cell overwrites Pacman's start; other cells leave these alone |
| Maze.AbsorbGhost | src/game/classes/GameEngine.ts:117-129 | visiting a cell holding a ghost's marker overwrites that ghost's start with the cell centre; other cells leave it alone |
| Maze.GhostStarts | src/game/classes/GameEngine.ts:139-141 | the ghost starts are found exactly when every type has one, and are then returned in type order; otherwise the error message names a type that has none |
| Maze.ResolveStarts | src/game/classes/GameEngine.ts:133-150 | a missing Pacman start fails first with its message; success exactly when Pacman and every ghost type have starts, which it returns in type order |
| Maze.ParseFailsIffMarkerMissing | src/game/classes/GameEngine.ts:133-141 | parsing a layout fails exactly when it lacks 'P' or one of the ghost letters |
| Maze.LastOfOnlyCell | src/game/classes/GameEngine.ts:114-128 | a letter occurring in exactly one cell records that cell's centre as its start |
| Maze.MazeLayoutParses | src/game/classes/GameEngine.ts:93-154 | the game's own layout parses, with Pacman at cell (1, 1) and Blinky, Pinky, Inky, Clyde at (11, 8), (13, 8), (12, 8), (14, 8) |
| Maze.StartCellsOpen | src/game/constants/GameConstants.ts:39-60 | every start position of the game's layout passes the traversal test |
| Engine.LevelGhostSpeed | src/game/classes/GameEngine.ts:198-206 | the ghost speed of a level stays within the table's first and last speeds |
| Engine.LevelSpeeds | src/game/classes/GameEngine.ts:198-206 | level n up to 5 takes row n's speed, every level from 5 on takes 2.3, and a higher level is never slower |
| Engine.BufferedDirection | src/game/classes/GameEngine.ts:375-392 | each heading is buffered by exactly its arrow key and its w, a, s or d key |
| Engine.PauseKeyIsNotMovement | src/game/classes/GameEngine.ts:363-370 | the pause key buffers no heading |
| Engine.TouchesMeansWithinReach | src/game/classes/GameEngine.ts:399-407 | an item is eaten exactly when its distance from Pacman is below CELL_SIZE / 2 |
| Engine.UneatenMembers | src/game/classes/GameEngine.ts:402-415 | the filter keeps exactly the items out of reach |
| Engine.Uneaten | src/game/classes/GameEngine.ts:402-415 | the filter never grows the list and keeps no item within reach |
| Engine.NothingEatenIff | src/game/classes/GameEngine.ts:402-415 | nothing is eaten exactly when no item is in reach |
| Engine.UneatenIdempotent | src/game/classes/GameEngine.ts:402-415 | filtering again at the same position removes and awards nothing more |
| Engine.NoneTouchingKept | src/game/classes/GameEngine.ts:402-415 | a list with nothing in reach passes the filter whole |
| Engine.EatenCount | src/game/classes/GameEngine.ts:402-415 | the items eaten and the items kept add up to the items examined |
| Engine.Filter | src/game/classes/GameEngine.ts:402-415 | one pass keeps the out-of-reach items in order and counts the items in reach |
| Engine.BindCanMove | src/game/classes/GameEngine.ts:486 | the bound callback agrees with the traversal test everywhere |
| Engine.NewGame | src/game/classes/GameEngine.ts:55-80 | a new game is valid, freshly parsed, score 0, level 1, three lives, READY, nothing buffered or pending |
| Engine.ParseLayout | src/game/classes/GameEngine.ts:102-150 | on the game's layout the scan yields the dot and pellet centres and the start positions, and the start checks pass |
| Engine.SpawnGhosts | src/game/classes/GameEngine.ts:139-150 | one new ghost per type in type order, each at its start, facing right, not scared, on distinct bodies |
| Engine.GameEngine.constructor | src/game/classes/GameEngine.ts:55-73 | the field initialisers: score 0, level 1, three lives, READY, nothing buffered, an empty board and the traversal test bound |
| Engine.GameEngine.InitializeMaze | src/game/classes/GameEngine.ts:93-154 | the board becomes the parse of the layout, Pacman is at his start unpowered, one ghost per type is at its start with the level's speed, and the engine is valid; counters and state unchanged |
| Engine.GameEngine.ApplyLevelSettings | src/game/classes/GameEngine.ts:198-206 | every ghost takes the current level's speed; positions and headings unchanged |
| Engine.GameEngine.Start | src/game/classes/GameEngine.ts:211-223 | READY, LEVEL_COMPLETE and PAUSED become PLAYING; PLAYING and GAME_OVER stay |
| Engine.GameEngine.Pause | src/game/classes/GameEngine.ts:228-236 | PLAYING becomes PAUSED; any other state stays |
| Engine.GameEngine.Reset | src/game/classes/GameEngine.ts:241-252 | score 0, level 1, three lives, READY, and the maze parsed afresh |
| Engine.GameEngine.HandleKeyDown | src/game/classes/GameEngine.ts:361-393 | 'p' toggles only between PLAYING and PAUSED and buffers nothing; any other key leaves the state alone and buffers its heading only in PLAYING |
| Engine.GameEngine.UpdatePacmanDirection | src/game/classes/GameEngine.ts:171-193 | no buffered turn: nothing changes; a reversal is taken at once without snapping; another turn is taken only at an intersection with the point one unit ahead open, snapping to the cell centre; otherwise it stays buffered; Pacman stays on open ground |
| Engine.GameEngine.ScareAll | src/game/classes/GameEngine.ts:435 | every ghost scared at speed 2, positions and headings unchanged |
| Engine.GameEngine.UnScareAll | src/game/classes/GameEngine.ts:431 | every ghost unscared at speed 3, positions and headings unchanged |
| Engine.GameEngine.ResetGhosts | src/game/classes/GameEngine.ts:274 | every ghost back at its spawn point, facing right, unscared at speed 3 |
| Engine.GameEngine.AdvanceClock | src/game/classes/GameEngine.ts:430-432 | the clock moves to t. If the power-mode deadline has passed, power mode ends, the deadline is cleared and every ghost is unscared at speed 3. Otherwise power mode and every ghost's scared flag and speed are unchanged. In both cases no body moves or turns, and the mouth is untouched |
| Engine.GameEngine.FireRespawnTimer | src/game/classes/GameEngine.ts:280-284 | the respawn continuation sets PLAYING, whatever the state |
| Engine.GameEngine.FireLevelTimer | src/game/classes/GameEngine.ts:305-310 | the next-level continuation parses the maze afresh and sets PLAYING, keeping score, level and lives |
| Engine.GameEngine.HandlePacmanDeath | src/game/classes/GameEngine.ts:257-286 | one life lost. At or below zero: GAME_OVER, and Pacman, every ghost and the pending respawns are unchanged. Otherwise: Pacman at his start facing right and unpowered, every ghost at its spawn point facing right, unscared at speed 3, PAUSED, and one more respawn scheduled. Score, level, board and buffered heading are kept in both cases |
| Engine.GameEngine.SendHome | src/game/classes/GameEngine.ts:273-274 | Pacman at his start facing right and unpowered; every ghost at its spawn point facing right, unscared at speed 3 |
| Engine.GameEngine.PauseForRespawn | src/game/classes/GameEngine.ts:277-284 | the game is PAUSED and exactly one more respawn continuation is pending |
| Engine.GameEngine.HandleLevelComplete | src/game/classes/GameEngine.ts:291-311 | level + 1, LEVEL_COMPLETE, and a next-level continuation scheduled |
| Engine.GameEngine.EatDots | src/game/classes/GameEngine.ts:402-415 | the dots become those out of reach and the score grows by 10 per dot eaten |
| Engine.GameEngine.PowerUp | src/game/classes/GameEngine.ts:423-436 | 50 points, power mode until now + 8000, every ghost scared; ghost positions unchanged |
| Engine.GameEngine.EatPowerPellets | src/game/classes/GameEngine.ts:418-440 | the pellets become those out of reach, 50 points each; if any was eaten power mode runs for the full duration from now with every ghost scared, otherwise power is untouched |
| Engine.GameEngine.ResolveGhostContact | src/game/classes/GameEngine.ts:444-456 | no contact: nothing at all changes. Contact with a scared ghost: 200 points; that ghost goes to its spawn point facing right, unscared at speed 3; Pacman, the other ghosts, lives, state and pending respawns are untouched. Contact with another ghost: one life lost; on the last life GAME_OVER with all bodies unchanged, otherwise Pacman and every ghost sent home, PAUSED and a respawn scheduled |
| Engine.GameEngine.ResolveGhostContacts | src/game/classes/GameEngine.ts:443-457 | after every ghost is checked, the score has not dropped, lives have not risen, and the board is unchanged |
| Engine.GameEngine.CheckCollisions | src/game/classes/GameEngine.ts:398-463 | dots and pellets in reach of Pacman's position are removed and scored, the score does not drop, and a cleared board advances the level into LEVEL_COMPLETE |
| Engine.GameEngine.MovePacman | src/game/classes/GameEngine.ts:483-487 | after the buffered turn and one step, Pacman is still on open ground and the engine valid; the mouth advances by exactly one frame; power mode is untouched |
| Engine.GameEngine.MoveGhost | src/game/classes/GameEngine.ts:490-498 | the ghost picks a heading other than its reversal and steps if open; it stays on open ground |
| Engine.GameEngine.Tick | src/game/classes/GameEngine.ts:468-508 | outside PLAYING nothing changes; otherwise after one frame every body is still on open ground, the score has not dropped, lives have not risen and the level has not dropped |
| Touch.SwipeDirection | src/game/utils/MobileControls.ts:136-150 | a heading is emitted exactly when the move exceeds 30 pixels along some axis |
| Touch.SwipeIsDominantAxis | src/game/utils/MobileControls.ts:136-150 | the emitted heading is the one the move points along most, projecting max(abs dx, abs dy); horizontal exactly when the horizontal part strictly dominates, so ties go vertical |
| Touch.SwipeRegions | src/game/utils/MobileControls.ts:136-150 | nothing below the threshold; RIGHT / LEFT exactly when abs dx > abs dy with dx positive / not; DOWN / UP otherwise with dy positive / not |
| Touch.SwipeReversed | src/game/utils/MobileControls.ts:137-150 | swiping the opposite way emits the opposite heading |
| Touch.MobileControls.constructor | src/game/utils/MobileControls.ts:14-34 | the touch start is (0, 0); on a touch device the buttons exist and are shown, elsewhere there are none |
| Touch.MobileControls.HandleTouchStart | src/game/utils/MobileControls.ts:117-121 | the swipe start becomes the touch point |
| Touch.MobileControls.HandleTouchMove | src/game/utils/MobileControls.ts:126-157 | no touch point: nothing; otherwise the heading of the move from the start is emitted, and the start moves to the touch point exactly when one is |
| Touch.MobileControls.ToggleControls | src/game/utils/MobileControls.ts:162-168 | the flag flips only when the buttons exist, and the result is the flag after the call |
| Touch.SwipeThenHold | src/game/utils/MobileControls.ts:153-155 | after a swipe, a second move event at the same point emits nothing |
| Touch.ToggleTwice | src/game/utils/MobileControls.ts:162-168 | toggling twice restores the visibility |
| GameComponent.KeyForDirectionBuffers | src/game/components/Game.tsx:46-51 | the key for each heading buffers exactly that heading, is not the pause key, and differs from the other headings' keys |
| GameComponent.KeyForDirection | src/game/components/Game.tsx:46-51 | the key sent for a heading is one the keyboard handler buffers as exactly that heading, and never the pause key |
| GameComponent.OnDirectionChange | src/game/components/Game.tsx:44-53 | while PLAYING a button or swipe buffers exactly its heading; in any other state nothing changes |

## Left out

- Rendering (`drawMaze`, `setupCanvas`, the flashing that reads a timer's internal start time) and all DOM work of the touch controls (element creation, styling, event listener wiring and `cleanup`), because they are output and browser I/O.
- `requestAnimationFrame`, the 60 fps throttle of `gameLoop`, `setTimeout`/`clearTimeout` and `Date.now`. The clock `now` and the explicit continuation steps replace them, in one fixed sequential order. Interleavings of several real timers, such as a respawn firing after a later level completion, are not modelled.
- The `onScoreUpdate` and `onGameStateChange` callbacks and the disabled sound calls, because they only report and change nothing.
- `cleanup` of Ghost, Pacman and GameEngine, because it only cancels timers that the clock model does not hold.
- Ghost colours (`GHOST_COLORS`), which only drawing uses.
- `SoundManager`, an empty stub. The React components `GameUI`, `GameHeader` and the rest of `Game`, which are presentation.
- IEEE floating point. Coordinates are exact reals, `Math.cos`/`Math.sin` are exact unit offsets, and the mouth angle is kept in hundredths of a radian, so 0.2 + 0.02k needs no rounding.
- The touch-device detection of `init`. It is the constructor's `touchDevice` parameter.
- `src/app/temp.tsx`, an unused prototype that is not part of this model.
- Engine.GameEngine.Tick: the ghosts are moved one after the other against Pacman's position after his move, as in the source. The contract states the frame invariants and monotone counters, not the full new state; that detail lives in the contracts of MovePacman, MoveGhost and CheckCollisions.
- Engine.GameEngine.MovePacman: the position after the frame is stated only as staying on open ground; the exact turn and step are the contracts of UpdatePacmanDirection and Entities.Entity.Move, which it calls in that order.
- Engine.GameEngine.MoveGhost: states that the ghost does not reverse and stays on open ground; the choice itself is the contract of Ghosts.Ghost.CalculateNextMove.
- Engine.GameEngine.CheckCollisions: the score is stated as at least the dot and pellet points, because ghost contacts may add 200-point bonuses in the same call. ResolveGhostContact states each contact exactly.
- Engine.GameEngine.ResolveGhostContacts: states only the bounds the whole pass keeps. The per-ghost outcome is in ResolveGhostContact.
