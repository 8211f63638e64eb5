# Wumpus World, modelled in Dafny

This project models the game logic of the browser game Wumpus World: the
`WumpusWorld` class of `app.js`, without its rendering code. The game is a
turn-based state machine on a 4×4 cave. The player starts at the entrance
(1,1) facing right, with score 0 and one arrow. The player moves forward,
turns left or right, grabs gold, shoots the arrow, and climbs out. The cave
holds one wumpus, one piece of gold and three pits. Percepts (glitter, stench,
breeze, bump, scream) tell the player what is around them.

The project has four modules:

- `Board` (board.dfy): positions, the four headings and their unit vectors,
  cells and the grid (a map from `(x, y)` to a cell record).
- `Generation` (generation.dfy): how `generateWorld` builds the cave. It makes
  the list of the 15 cells other than the entrance, then draws the wumpus, the
  gold and the pits from that list without replacement. Each draw is given as
  an index parameter, in place of `Math.random`. The module also has the two
  loop methods that build the empty grid and the candidate list.
- `Rules` (rules.dfy): every field of the game object as one value `Game`, one
  total function per action, and the lemmas that state what the rules promise.
- `Wumpus` (wumpus_world.dfy): the class `WumpusWorld`, whose fields the
  methods update in place, as the source does. It has the arrow's `while`
  loop, the percept scan's `for` loop and the world generator's draw loop.
  Each action method (MoveForward, TurnLeft, TurnRight, Grab, Shoot, Climb,
  UpdatePerceptions) proves that it leaves the fields exactly as the matching
  `Rules` function says (`Model() == Rules.X(old(Model()))`). The other
  methods state their new state directly. Every method that requires the
  invariant `Valid()` also ensures it, and so do the constructor,
  InitializeGame and RestartGame. `Valid()` says the player is inside the
  cave, the grid has every cell, and the arrow count is never negative.

Two consequences of the code are worth knowing:

- Two moves from (1,1) into the wumpus cost 1002 points. The move point is
  charged before the hazard check (app.js:175, 185)
  (`Rules.TwoStepsIntoTheWumpus`).
- An arrow flies over pits, because the ray checks only bounds and a live
  wumpus (app.js:272-280) (`Rules.RayTarget`).

## Model

| member | source | states |
|---|---|---|
| Wumpus.WumpusWorld.constructor | app.js:3-24 | A new game object equals `Rules.NewGame` of the draws (initializeGame, then updatePerceptions) and satisfies the invariant |
| Wumpus.WumpusWorld.InitializeGame | app.js:26-46 | The player fields are reset to (1,1), facing right, score 0, one arrow, no gold, playing, only the entrance visited, no percepts, and the grid is the generated one |
| Wumpus.WumpusWorld.GenerateWorld | app.js:48-87 | The splice-and-mark loop leaves `grid` equal to `Generation.GeneratedGrid` of the draws and the wumpus alive, and changes no other field |
| Generation.EmptyGrid | app.js:50-55 | The nested loops build a grid that has exactly the 16 cells of the cave, each with no flag set |
| Generation.AvailablePositions | app.js:57-65 | The nested loops build exactly the candidate list: every cell but the entrance, x outer and y inner |
| Generation.CandidatesAreTheOtherCells | app.js:57-65 | The candidate list has no repeats, and a cell is in it iff it is inside the cave and is not the entrance |
| Generation.RemoveTakesOnlyThatElement | app.js:69 | Splicing out index `i` of a list without repeats leaves a list without repeats that holds exactly the other elements |
| Generation.DrawIsDistinct | app.js:67-86 | Drawing without replacement gives distinct cells from the pool, one per draw unless the pool runs dry |
| Generation.LayoutGrows | app.js:67-86 | Marking the next drawn cell changes only that cell: the first draw sets its wumpus flag, the second its gold flag, later draws its pit flag |
| Generation.LayoutMarks | app.js:67-86 | The wumpus is exactly at the first draw, the gold exactly at the second, the pits exactly at the later draws, and every other cell is empty |
| Generation.GeneratedWorldIsWellFormed | app.js:48-87 | For every valid set of draws the world has every cell, exactly one wumpus, one gold and three pits on pairwise distinct cells, and an empty entrance |
| Wumpus.WumpusWorld.MoveForward | app.js:149-203 | The fields change exactly as `Rules.MoveForward` says, and the invariant is kept |
| Rules.MoveForwardOutcome | app.js:157-201 | Into a wall: nothing changes except that bump is added. Otherwise: the position is the old one plus the heading vector, the score drops by 1, and the cell is visited. A live wumpus or a pit there means lost and 1000 more points gone; a safe move recomputes the percepts for the new cell. The player always stays inside the cave |
| Rules.TwoStepsIntoTheWumpus | app.js:172-187 | From (1,1) facing right, with the wumpus at (3,1) and (2,1) safe, two moves give phase lost and score −1002 |
| Wumpus.WumpusWorld.TurnLeft | app.js:205-215 | The fields change exactly as `Rules.TurnLeft` says, and the invariant is kept |
| Wumpus.WumpusWorld.TurnRight | app.js:217-227 | The fields change exactly as `Rules.TurnRight` says, and the invariant is kept |
| Rules.TurnsUndoEachOther | app.js:205-227 | A left turn sets the heading to (i+3)%4 and a right turn to (i+1)%4, each for one point, and nothing else changes. Left then right, or right then left, restores the heading at a cost of 2 |
| Rules.FourTurnsComeBack | app.js:205-227 | Four turns the same way restore the heading at a cost of exactly 4 points |
| Wumpus.WumpusWorld.Grab | app.js:229-247 | The fields change exactly as `Rules.Grab` says, and the invariant is kept |
| Rules.GrabTakesGoldOnce | app.js:229-247 | Grabbing untaken gold sets hasGold and clears the gold flag of the player's cell. Nothing else changes: the other cells, the wumpus and pit cells, and the other fields stay the same. Any other grab changes nothing, so a second grab is a no-op |
| Wumpus.WumpusWorld.Shoot | app.js:249-298 | The arrow loop terminates, and the fields change exactly as `Rules.Shoot` says, with the invariant kept |
| Wumpus.WumpusWorld.KillWumpus | app.js:280-294 | The wumpus is marked dead, its cell loses the wumpus flag, and scream is added |
| Rules.ShootMisses | app.js:257-277 | A shot whose ray meets no live wumpus only spends the arrow and 10 points |
| Rules.ShootKills | app.js:257-294 | A shot whose ray meets the live wumpus spends the arrow and 10 points, kills the wumpus, clears that cell and adds scream |
| Rules.ShootWithoutArrowsChangesNothing | app.js:252-255 | A shot with no arrows changes nothing |
| Rules.RayHitsIffWumpusInLine | app.js:267-295 | The arrow kills iff the wumpus is alive and lies k ≥ 1 steps along the heading, inside the cave |
| Rules.RayHitsNearestWumpus | app.js:267-295 | When the arrow kills, it hits the nearest wumpus on the ray, and every cell it crossed is inside the cave and holds no wumpus. Pits do not stop it |
| Rules.ShootOutcome | app.js:257-295 | A shot spends one arrow and 10 points. It kills iff a live wumpus lies on the ray; then scream is added and one wumpus cell is gone. Otherwise the grid, the wumpus and the percepts stay. Position, heading, gold, phase and visited cells never change |
| Rules.DeadWumpusIsNeverShot | app.js:280 | Once the wumpus is dead, no shot changes the grid or revives it |
| Wumpus.WumpusWorld.Climb | app.js:300-320 | The fields change exactly as `Rules.Climb` says, and the invariant is kept |
| Rules.ClimbWinsOnlyWithGoldAtStart | app.js:300-320 | A climb wins iff the player is at (1,1) with the gold; then the score rises by 1000 and nothing else changes. Any other climb changes nothing |
| Rules.FinishedGameIsFrozen | app.js:149-320 | In a won or lost game, no sequence of actions changes anything |
| Wumpus.WumpusWorld.UpdatePerceptions | app.js:322-360 | The percept set becomes `Rules.Sensed` of the game, and no other field changes |
| Wumpus.WumpusWorld.SenseNeighbour | app.js:334-357 | One pass of the scan adds stench for a live wumpus and breeze for a pit in the neighbour along that heading, and nothing for a heading that leaves the cave |
| Rules.NeighbourScan | app.js:334-357 | The scan of the first n headings yields only stench and breeze. Stench appears iff the wumpus is alive and one of those neighbours holds it; breeze appears iff one of them holds a pit |
| Rules.ScanCoversNeighbours | app.js:334-345 | The four headings reach exactly the orthogonal neighbours inside the cave |
| Rules.PerceptsAfterUpdate | app.js:322-382 | After a refresh: glitter iff the player's cell has gold, stench iff a live wumpus is next door, breeze iff a pit is next door, scream iff it was pending, and never bump |
| Rules.RefreshAfterKillDropsStench | app.js:289-292 | The refresh that runs after a kill finds no stench and keeps the scream |
| Wumpus.WumpusWorld.AddPerception | app.js:362-364 | The percept joins the set, and no other field changes |
| Wumpus.WumpusWorld.ClearPerceptions | app.js:375-382 | Only a pending scream survives, and no other field changes |
| Rules.ClearPerceptions | app.js:375-382 | The result holds at most scream, and holds scream iff the input did |
| Wumpus.WumpusWorld.ExpirePerception | app.js:366-372 | The timer callback removes bump or scream from the set, and nothing else changes |
| Rules.ExpirePerception | app.js:366-372 | The expiry removes exactly that percept and leaves every other field as it was |
| Wumpus.WumpusWorld.RestartGame | app.js:558-568 | A restart leaves exactly `Rules.NewGame` of the new draws, and the invariant holds |
| Rules.NewGameResetsEverything | app.js:26-46 | A fresh game is at (1,1) facing right with score 0, one arrow, no gold, phase playing, only the entrance visited and a live wumpus. The world is well formed and the percepts are at most stench and breeze |
| Rules.Run | app.js:93-136 | Any sequence of player actions keeps the invariant |
| Board.AdjacentIsOneStep | app.js:334-338 | A cell is an orthogonal neighbour iff it is one unit-vector step away along some heading |

## Left out

- Rendering and event wiring are not modelled: `setupEventListeners`, `updateDisplay`, `updateGrid`, `updateStatus`, `updatePerceptionDisplay`, `updateControls`, `showMessage`, `endGame` and the page-load bootstrap (app.js:89-147, 384-556, 571-580). They only read the state. The control buttons appear only as the `Rules.Action` choices that `Rules.Run` applies.
- `console.log` calls are not modelled; they only log.
- `Math.random` in `generateWorld` becomes the parameters `wumpusIndex`, `goldIndex` and `pitIndices`. Each must be below the length of the list it is drawn from, which `Math.floor(Math.random() * length)` always is. Nothing about the distribution is modelled.
- The timers are not modelled as time. The 2-second removal of bump and scream (app.js:366-372) is the separate operation `ExpirePerception`. The 1-second refresh after a kill (app.js:289-292) is a later call of `UpdatePerceptions`. So the model does not fix when these callbacks run, and it does not cover timers still pending from a game that was restarted. Right after a kill, stench can still be present until that refresh runs.
- animation.js is not part of this model. It is a decorative particle background built on floating point and animation frames.
- The pit loop's guard `availablePositions.length > 0` (app.js:81) is modelled, but it never stops the loop. After the wumpus and the gold, 13 candidates remain for 3 pits, so a generated world always has exactly three pits.
- Per-cell records that the source mutates in place (app.js:237, 282) are map updates here. No cell record is shared between two keys, so nothing is lost.
