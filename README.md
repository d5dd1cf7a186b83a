# Lane-dodging game: a verified model of its state machine

The game (`game.js`) lets a player sprite move between five lanes of a 500-wide board
while rows of obstacles fall down it. Three timers drive it: one spawns a row of
obstacles every two seconds, one adds a point every second, and a fast one moves the
obstacles and tests the player's hitbox against each of them; a collision stops the
timers, and a restart control starts a fresh session.

This project models that state machine over exact numbers:

- `Lanes` — the lane-centre table (`LaneCenters`, offset `100*i + 5` for lane `i`)
  and the clamped left/right steps.
- `Shuffle` — the Fisher–Yates shuffle of the lane indices `[0, 1, 2, 3, 4]`, run in
  place on an array, with the random draws passed in as `choices`.
- `Obstacles` — an obstacle is `Obstacle(lane, top)`; a row is spawned at top `-80`;
  one physics step (`Advanced`) moves every obstacle down 5 and drops those whose new
  top exceeds 600.
- `Collision` — rectangles in `real` coordinates, the 85 by 55 hitbox centred in the
  player rectangle (insets 2.5 and 17.5 for a 90 by 90 player), and the strict
  four-inequality overlap test.
- `Session` — class `Game` holding `lane`, `playerLeft`, `score`, `obstacles` and a
  `running` flag that stands for "the three timers are active"; its methods are the
  game's functions and the three timer callbacks (`SpawnTick`, `ScoreTick`,
  `PhysicsTick`), each doing nothing unless the game is running.

The rectangles the game reads from the rendered page are computed here from a
`Layout` value (board corner on screen, player's vertical offset and size, obstacle
size), together with the horizontal offsets the game itself sets.

Two details of the code:

- `startGame` puts the player in lane 1, the second of five lanes, not the middle one.
- The hitbox is 85 wide and 55 high, although the comment at `game.js:100` says 85x85.

## Model

| member | source | states |
|---|---|---|
| `Lanes.LaneCenter` | game.js:9-17 | the offset of lane `i` is `100*i + 5`, which centres a 90-wide sprite in a 100-wide lane |
| `Lanes.StepLeft` | game.js:39-40 | defines the lane after a left move: one less when above 0, else unchanged |
| `Lanes.StepRight` | game.js:46-47 | defines the lane after a right move: one more when below 4, else unchanged |
| `Lanes.StepsStayInLanes` | game.js:38-50 | a left or right move from a lane always lands in a lane in `[0, 4]` |
| `Lanes.StepsAtEdges` | game.js:38-50 | a left move is a no-op exactly at lane 0, a right move exactly at lane 4 |
| `Lanes.RightUndoesLeft` | game.js:38-50 | from any lane but the leftmost, left then right returns to the start |
| `Lanes.LeftUndoesRight` | game.js:38-50 | from any lane but the rightmost, right then left returns to the start |
| `Session.Game.UpdatePlayerPosition` | game.js:52-54 | the player's offset becomes the centre of its current lane |
| `Session.Game.MovePlayerLeft` | game.js:38-43 | the lane decreases by one only when above 0, and the offset follows the lane |
| `Session.Game.MovePlayerRight` | game.js:45-50 | the lane increases by one only when below 4, and the offset follows the lane |
| `Shuffle.Swap` | game.js:64 | defines the exchange of the entries at positions `i` and `j` |
| `Shuffle.ShuffledPrefix` | game.js:61-65 | each prefix of the shuffle steps still has five entries |
| `Shuffle.SwapKeepsMultiset` | game.js:64 | exchanging two entries keeps the multiset of entries |
| `Shuffle.SwapKeepsDistinct` | game.js:64 | exchanging two entries keeps pairwise distinct entries distinct |
| `Shuffle.SwapInPlace` | game.js:64 | the array afterwards is the old one with the two entries exchanged |
| `Shuffle.UnshuffledIsDistinct` | game.js:59 | the initial lane list has no repeated lane |
| `Shuffle.ShuffleStepKeepsMultiset` | game.js:62-65 | one step of the loop keeps the multiset of the lane list |
| `Shuffle.ShuffledPrefixPermutes` | game.js:59-65 | after any number of steps, for any draws with `0 <= j <= i`, the lane list is a permutation of `[0..4]` |
| `Shuffle.ShuffledPrefixDistinct` | game.js:59-65 | after any number of steps, for any such draws, the lane list has pairwise distinct entries |
| `Shuffle.LanesOfPermutation` | game.js:59 | anything with the multiset of `[0..4]` holds only lane indices |
| `Shuffle.FisherYatesIsPermutation` | game.js:59-65 | the finished shuffle holds each lane index exactly once |
| `Shuffle.FisherYates` | game.js:59-65 | defines the finished shuffle of `[0..4]` under the given draws: all four steps of the loop |
| `Shuffle.ShuffleInPlace` | game.js:61-65 | the in-place loop from `i = 4` down to `1` leaves the array equal to the shuffle of its draws |
| `Shuffle.ShuffleLanes` | game.js:59-65 | the shuffled lanes equal the shuffle of the draws and hold each lane exactly once |
| `Obstacles.Spawned` | game.js:68-79 | defines the obstacles of a row: one per chosen lane, in order, each at top -80 |
| `Obstacles.SpawnedStep` | game.js:68-71 | spawning one more chosen lane appends exactly one obstacle for that lane |
| `Obstacles.SpawnedRow` | game.js:68-79 | a row spawned in distinct lanes has distinct lanes, one obstacle per lane, all at top -80 |
| `Session.Game.CreateObstacleInLane` | game.js:74-80 | exactly one obstacle is appended, in the given lane at top -80 |
| `Session.Game.SpawnObstacleRow` | game.js:57-72 | appends `count` (1..4) obstacles in the first `count` shuffled lanes, pairwise distinct, at top -80, and leaves existing obstacles unchanged |
| `Obstacles.Advance` | game.js:85-91 | defines one obstacle after a step: moved down 5, or gone when its new top exceeds 600 |
| `Obstacles.Advanced` | game.js:84-92 | defines the whole list after a step: each obstacle advanced in turn, in list order |
| `Obstacles.AdvancedConcat` | game.js:82-93 | a step handles each obstacle on its own, so survivors keep their relative order |
| `Obstacles.AdvancedShrinks` | game.js:82-93 | a step never adds obstacles |
| `Obstacles.AdvancedMembers` | game.js:82-93 | after a step the obstacles are exactly the old ones moved down 5 whose new top is at most 600; lanes are unchanged |
| `Obstacles.AdvancedWithinBoard` | game.js:89-91 | every obstacle left after a step has top at most 600 |
| `Obstacles.AdvancedOnBoard` | game.js:82-93 | a step keeps every obstacle in a lane with top between -80 and 600 |
| `Obstacles.AdvancedKeepsAll` | game.js:84-87 | when no obstacle passes the bottom, a step moves each one down by exactly 5 and drops none |
| `Obstacles.AdvancedDropsLeaver` | game.js:89-91 | an obstacle whose new top exceeds 600 is removed |
| `Session.Game.MoveObstacles` | game.js:82-93 | the obstacles become the stepped list, and the board invariant is kept |
| `Collision.Hitbox` | game.js:100-108 | the hitbox is 85 wide and 55 high, centred in the player rectangle, and inside it when the player is at least that big |
| `Collision.Overlaps` | game.js:113-118 | defines the collision test: all four strict edge comparisons hold |
| `Collision.OverlapsIffSharedPoint` | game.js:113-118 | for an obstacle of positive size, the four strict inequalities hold iff the hitbox and obstacle interiors share a point |
| `Collision.TouchingIsNoCollision` | game.js:113-118 | a hitbox that only touches an obstacle along an edge does not collide |
| `Collision.HitboxInsidePlayer` | game.js:100-118 | a hitbox collision is also an overlap of the full player rectangle |
| `Collision.OverlapExamples` | game.js:113-118 | an overlapping pair is reported and a disjoint pair is not |
| `Session.PlayerRect` | game.js:98 | defines the player rectangle from the layout and the offset the game set, in place of the geometry query |
| `Session.ObstacleRect` | game.js:111 | defines an obstacle's rectangle from the layout, its lane centre and its top, in place of the geometry query |
| `Session.Hits` | game.js:113-118 | defines that the player's hitbox collides with one obstacle |
| `Session.AnyHit` | game.js:110-121 | defines that the hitbox collides with some obstacle of the list |
| `Session.Game.GameOver` | game.js:124-129 | afterwards the game is not running, whatever it was before, so repeating it changes nothing |
| `Session.Game.CheckCollision` | game.js:96-122 | the game is running afterwards iff it was running and no obstacle overlaps the hitbox |
| `Session.Game.StartGame` | game.js:132-153 | from any prior state: score 0, lane 1 with its offset, no obstacles, running |
| `Session.Game.ScoreTick` | game.js:145-148 | while running, the score grows by exactly 1. Otherwise nothing changes |
| `Session.Game.SpawnTick` | game.js:144 | while running, a row is spawned. Otherwise nothing changes |
| `Session.Game.PhysicsTick` | game.js:149-152 | while running, the obstacles are stepped and the game stops iff a remaining obstacle collides. Every obstacle then has top at most 600 |
| `Session.Game.constructor` | game.js:18-26 | a new game is idle: not running, score 0, lane 1, no obstacles |

## Left out

- Rendering: element creation and removal, the `style.left`/`style.top` strings and
  their `parseInt`, the score text and the restart button display. The in-memory
  fields stand for them.
- Geometry queries: the rectangles come from a `Layout` parameter, because the player's
  vertical position and the obstacle size live in a stylesheet that is not part of this
  model. The model assumes the page draws each element at the offsets the game sets.
- Timers: `setInterval`/`clearInterval` become the `running` flag and three tick
  methods. The periods, the interleaving of ticks, and "score equals elapsed whole
  seconds" are not modelled.
- `Session.Game.StartGame`: calling it while the game runs would, in the source, start a
  second set of timers next to the first ones, because the old ones are not cleared.
  One flag cannot express doubled timers. The source hides the restart control while
  running, so this only matters for calls the interface does not offer.
- Randomness: the spawn count and the shuffle draws are arguments with their ranges as
  preconditions. The uniform distribution of the shuffle is a probabilistic property
  and is not stated.
- The keyboard listener, the log message and the call to `startGame` on page load.
  A new `Game` is idle until `StartGame` is called.
- Number width: JavaScript numbers are doubles. Score and tops are unbounded integers
  here, and precision loss beyond 2^53 is not modelled. Rectangle coordinates, and with
  them the hitbox edges of game.js:104-107, are exact `real`s rather than doubles, so
  rounding in those edges is not modelled.
