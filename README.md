# Bounce-The-Ball: round state and scoring, in Dafny

A model of the game logic of a browser target-toss game. The player throws
up to ten balls per round at fifteen cups on a table. A ball that lands in
a cup scores 30 points, or 100 points in the single gold cup. When no throws
are left and no ball is in flight, the round ends and a rank is shown.

The model covers:

- the round state (`points`, `ballsRemaining`, `isGameRunning`), the list
  of balls in flight and the list of cups, and the handlers that change
  them: start, throw (mousedown), reset, exit to menu, and the game logic of
  one animation frame, including the round-end check;
- the motion of a ball in one frame (gravity, move, table bounce), over
  exact reals;
- the cup layout (rows of 5, 4, 3, 2 and 1 cups; the last row is gold);
- the rank of a final score;
- the leaderboard view (sorted by score, first five).

Layout:

- `physics.dfy` (module `Physics`): vectors, balls, the per-frame motion `Step`.
- `cups.dfy` (module `Cups`): cup tiers, point values, the layout.
- `rank.dfy` (module `Rank`): the end-screen rank.
- `leaderboard.dfy` (module `Leaderboard`): the stable descending sort and the top five.
- `round.dfy` (module `Round`): the game state as a value. It has one function per
  operation and the lemmas about them: throw budget, score budget, first-cup-wins
  scoring, order-preserving removal, and an end screen at most once per round.
- `game.dfy` (module `Game`): class `Game`, the page's mutable state. Its
  methods update the fields in place. The frame method walks the ball list
  backwards and splices balls out. Each method is proved to leave the state
  that the matching `Round` function gives.
- `wrappers.dfy` (module `Wrappers`): `Option`.

Two tests in the frame loop are geometric: whether a ball is inside a cup
(a planar distance under 0.32 and a height between 0.3 and 0.8), and whether
a ball is out of play or at rest. They use square roots of floating-point
distances. The model does not compute them. Every frame operation takes them
as parameters `hit(ball, cup)` and `gone(ball)`, so every result holds
whatever these tests say.

The model follows the code in these points:

- In script.js a cup that is hit stays on the table: the frame loop splices
  only the ball out of `activeBalls`, and `targetCups` is built once and never
  reset. So the gold cup scores again for every ball that lands in it.
  `Round.EveryHitPays` states this.
- The confirm-start handler always resets the round and sets it running,
  whatever state the page is in.
- The mousedown handler uses the aim velocity as it is; it checks no input.
- The bounce clamp applies at every x and z, beyond the table's edges too. So
  the out-of-play test for a ball below height -5 can never succeed
  (`Physics.NeverBelowFloor`). A ball that leaves the table sideways keeps
  bouncing until it passes the far edge or comes to rest.
- `animate` moves and scores the balls whether or not a round is running.
  Only its round-end check reads `isGameRunning`.

## Model

| member | source | states |
|---|---|---|
| Physics.Step | script.js:80-89 | after a frame's move the ball is never below its resting height BALL_RADIUS; x and z advance by the velocity; away from the table the height changes by velocity plus gravity |
| Physics.Launched | script.js:153-155 | a thrown ball starts at the launch origin, above resting height, with the current aim velocity |
| Physics.GravityWithoutBounce | script.js:80-81 | without a bounce the vertical speed drops by exactly GRAVITY and the horizontal speed is unchanged |
| Physics.BounceLosesEnergy | script.js:84-89 | a bounce clamps the ball to resting height, keeps 0.6 of the vertical speed, turns a falling ball upward and never speeds up horizontal motion |
| Physics.NeverBelowFloor | script.js:104 | a moved ball is never below height -5, so the fallen-off-the-table part of the out-of-play test can never fire |
| Cups.Value | script.js:95 | a cup pays 100 if and only if it is gold, otherwise 30 |
| Cups.RowTier | script.js:59 | a cup is gold exactly when it is in row index 4 |
| Cups.Row | script.js:53-58 | a row of `count` cups holds `count` cups, all of the row's tier, on the line z = 2 - 1.4 × rowIndex, 1.4 apart and placed symmetrically about x = 0 |
| Cups.LayoutFacts | script.js:51-62 | the table holds 15 cups; exactly one is gold, the last one pushed; all others are normal |
| Rank.Rank | script.js:201-211 | a score of 450 or more gets a rank from 1 to 5; a lower score gets a rank from 10 to 99 |
| Rank.RankCountsMissedThresholds | script.js:202-207 | for scores of 450 or more, the rank is one plus the number of the thresholds 1000, 800, 650, 550 the score falls short of |
| Rank.RankMonotone | script.js:202-209 | a higher score in the ranked range never gets a numerically larger rank; every ranked score beats every randomly ranked one |
| Rank.EveryLowRankReachable | script.js:209 | every rank from 10 to 99 comes out for some value of the random draw |
| Leaderboard.SortByScore | script.js:232 | the sorted board is a permutation of the board, in descending score order |
| Leaderboard.TopScores | script.js:232 | the view shows min(5, board size) entries, in descending order, taken from the board; no entry left out scores more than an entry shown |
| Leaderboard.InitialView | script.js:2 | the starting board is shown whole, 850 before 520 |
| Round.Initial | script.js:3 | the page starts with no points, ten throws, no round running, inside the score budget |
| Round.ResetGameplay | script.js:177-186 | a reset lands inside the score budget and leaves the running flag and the cups alone |
| Round.Start | script.js:128-132 | starting leaves a running round inside the score budget with the same cups |
| Round.Exit | script.js:165-175 | exiting leaves a stopped round inside the score budget with the same cups |
| Round.Launch | script.js:151-162 | a throw keeps the score budget and never changes the points, the running flag or the cups |
| Round.LaunchGuard | script.js:152-158 | a throw happens exactly when the round runs and throws are left; it appends one ball at the launch origin and takes exactly one throw; otherwise nothing changes; the throws left never go negative |
| Round.FirstHit | script.js:92-103 | gives the first cup in table order that the ball is in, or nothing if and only if it is in no cup |
| Round.Resolve | script.js:79-107 | a ball scores if and only if its moved position is in some cup; the first such cup wins and pays its value; only a ball that did not score is dropped for leaving play; a ball that stays is the moved ball |
| Round.FrameGain | script.js:92-102 | a frame's points are never negative and at most 100 per ball in flight |
| Round.Survivors | script.js:78-108 | no more balls survive a frame than were in flight, and every survivor sits at or above resting height |
| Round.RoundEnd | script.js:110-113 | the end screen is scheduled if and only if the round runs with no throws left and no ball in flight, and then the round stops |
| Round.Tick | script.js:78-113 | a frame never lowers the points or changes the throws left or the cups; it schedules the end screen exactly when it stops a running round, which happens only with no throws left and no ball in flight; it never starts a round |
| Round.SurvivorsKeepOrder | script.js:78-107 | the frame removes exactly the balls that scored or left play; the survivors are the other balls, moved, in their original order |
| Round.FrameWithinBudget | script.js:92-107 | a frame's points plus 100 per surviving ball never exceed 100 per ball it started with |
| Round.TickKeepsBudget | script.js:78-113 | a frame keeps the score budget, so the points never exceed 10 × 100 |
| Round.EveryHitPays | script.js:92-101 | cups are never removed: balls that all land first in the same cup each pay that cup's value and all leave play |
| Round.ThrowBudget | script.js:151-158 | between resets, the balls that throw events put in flight plus the throws left equal the throws left at the start; the throws left never go negative; the points never drop |
| Round.AtMostTenThrowsPerRound | script.js:152-158 | after a start, throw events put at most ten balls in flight before the next start or exit |
| Round.EndScreenAtMostOnce | script.js:110-112 | without a start, end screens scheduled plus whether the round still runs never exceed whether it ran before |
| Round.OneEndScreenPerRound | script.js:110-113 | a started round schedules its end screen at most once before the next start |
| Round.RunKeepsBudget | script.js:95 | every sequence of start, throw, frame and exit keeps the score budget; no round ever holds more than 1000 points |
| Game.FindHit | script.js:92-103 | the cup scan returns the first cup in table order that the ball is in, or nothing if it is in none, and agrees with Round.FirstHit |
| Game.Game.constructor | script.js:3-11 | the page starts in the initial state with the cups laid out, inside the score budget |
| Game.Game.CreateWorld | script.js:50-63 | pushing the rows one cup at a time appends exactly the layout to the cup list and changes nothing else |
| Game.Game.PushRow | script.js:55-61 | pushing one row cup by cup appends exactly Cups.Row of that row to the cup list and changes nothing else |
| Game.Game.ResetGameplayState | script.js:177-186 | the fields become Round.ResetGameplay of their old values |
| Game.Game.ConfirmStart | script.js:128-132 | the fields become Round.Start of their old values |
| Game.Game.ExitToMainMenu | script.js:165-175 | the fields become Round.Exit of their old values |
| Game.Game.MouseDown | script.js:151-162 | the fields become Round.Launch of their old values and the aim |
| Game.Game.ResolveBall | script.js:79-107 | the ball at index i is replaced by what Round.Resolve keeps of it (itself moved, or nothing), and the points grow by what it scored |
| Game.Game.MoveBalls | script.js:78-108 | the backward splice loop leaves exactly Round.Survivors of the old list and adds Round.FrameGain to the points |
| Game.Game.CheckRoundEnd | script.js:110-113 | the fields and the scheduling flag are Round.RoundEnd of the old fields |
| Game.Game.Animate | script.js:66-115 | the fields and the scheduling flag are Round.Tick of the old fields |

## Left out

- Rendering: the scene, camera, lights, star field, meshes, `renderer.render` and the aim-guide ball. These are calls into a 3D library that is not part of this model.
- The in-cup test and the out-of-play/at-rest test. They are floating-point geometry with square roots, and they are parameters of every frame operation.
- Floating-point rounding in the motion of a ball. `Physics.Step` computes over exact reals.
- The aim velocity computed from the mouse position by ray casting. Throws take the velocity as a parameter.
- Particles and the explosion effect on a hit, and the cup colours that feed them. They are cosmetic and random, and have no effect on the game state.
- DOM text, alerts, nickname entry, the end screen's HTML and the modal. These are presentation only. The nickname is cleared on exit, but it is not part of the game state modelled here.
- The 800 ms delay before the end screen, and the animation-frame scheduling. A frame reports the end screen as a flag, and a frame is one call.
- The browser's random generator. The rank takes the draw as a parameter in [0, 1).
- Balls are values in the model. The source mutates each ball object in place, and no two list entries share a ball, so nothing about aliasing is lost.
- The leaderboard is never updated by the code, so no insertion is modelled.
- Leaderboard.TopScores: does not state that entries with equal scores keep their board order, though the sort used is stable.
