# Blocktime-Blitz game core in Dafny

This project models the deterministic core of the Blocktime-Blitz browser game in `js/game.js`. In the game, a square player runs along the ground and jumps over obstacles. The game has:

- a seeded pseudo-random generator;
- obstacle and power-up spawning;
- the per-frame `step` update (difficulty, player physics, spawn cadence, the move and pickup loops, the shield, collisions and score);
- the start of a run;
- the jump inputs;
- the button gating that decides when a score may be verified or submitted.

The model is split in four modules:

- `Rng` (`rng.dfy`) models `rngFactory`.
  - The 256-bit run seed is reduced modulo the prime 4294967291; 0 is replaced by 123456789.
  - The state then advances by xorshift32 with shifts 13, 17 and 5 on `bv32`. Each draw is the new state divided by 2^32.
  - The closure the factory returns is the class `Generator`. Its state `x` changes on every call, and the ghost `origin` and `drawn` record where the state comes from.
- `Geometry` (`geometry.dfy`) models `rectsOverlap`.
- `Rules` (`rules.dfy`) holds the game as values.
  - A `World` is every module-level variable that `step` reads or writes, with the generator recorded as its seeded state and its number of draws.
  - Each phase of `step` is a function from `World` to `World`. `StepWorld` is one whole call, and `StartRun` is the start of a run.
  - The properties of the game are proved here, once, as lemmas about these functions.
- `Session` (`game.dfy`) is the page as it runs. The class `Game` has one field per variable of the page, and its methods update those fields in place.
  - `step` is split into one method per phase, and each loop is a `while` loop with its invariants.
  - Every method's ensures give the new state, most in the form `State() == Rules.F(old(State()))`: the method changes the game exactly as the matching `Rules` function changes the `World` it sees. So everything proved in `Rules` holds of the running game.

Numbers are exact: the game's doubles are Dafny `real`s, and widths, heights and counters are `int`s. The generator works on the 32-bit word, as the JavaScript bit operators do. The canvas size, the run seed, the run nonce and the wallet digest are parameters.

Three behaviours of the code worth knowing:

- **Zero-size boxes.** A box of zero width or height can still overlap another box. It overlaps when it lies strictly inside the other box's span on its flat axis and the boxes meet on the other axis, because all four comparisons are strict. `Geometry.FlatBoxes` states what does hold: two boxes flat along the same axis never overlap, and a flat box overlaps only from strictly inside the other's span.
- **Touching boxes.** Boxes that touch with no gap are not reported as overlapping, because the comparisons are strict (`Geometry.TouchingEdgesDoNotOverlap`).
- **Order of pickups and collisions.** Power-ups are picked up inside the move loop (js/game.js:268-274), before the shield countdown (275) and the collision loop (278-284). So a shield picked up in a frame already absorbs a hit in that same frame, with 599 ticks left before the hit.

## Model

| member | source | states |
|---|---|---|
| `Rng.InitialState` | js/game.js:186 | the starting state is never 0 and always below 4294967291, and a seed divisible by 4294967291 starts from 123456789 |
| `Rng.ApplyShift` | js/game.js:188-190 | one `x ^= x << k` or `x ^= x >>> k` stage on the 32-bit word; `Rng.ApplyShiftNonZero` states it never maps a non-zero word to 0 |
| `Rng.XorShifts` | js/game.js:188-190 | the stages applied in order; `Rng.XorShiftsNonZero` states that non-zero words stay non-zero |
| `Rng.Xorshift` | js/game.js:188-190 | the three stages left 13, right 17, left 5 in the source order; `Rng.XorshiftNonZero` states it never reaches 0 from a non-zero state |
| `Rng.SameResidueSameStream` | js/game.js:186 | two seeds with the same residue modulo 4294967291 give the same state after any number of draws; a seed of residue 0 replays the stream of residue 123456789 |
| `Rng.XorShiftsNonZero` | js/game.js:188-190 | any sequence of xor-shift stages maps a non-zero word to a non-zero word |
| `Rng.XorshiftNonZero` | js/game.js:188-190 | one step of the 13/17/5 xorshift never sends a non-zero state to 0 |
| `Rng.IterateNonZero` | js/game.js:186-190 | a generator started in a non-zero state is non-zero after any number of steps |
| `Rng.IterateStep` | js/game.js:188-190 | the state after n + 1 draws is one more xorshift step of the state after n |
| `Rng.Iterate` | js/game.js:187-190 | the state after n calls of the generator: n xorshift steps from the seeded state; `Rng.IterateNonZero` and `Rng.DrawAtIterate` state its properties |
| `Rng.Draw` | js/game.js:191 | a word divided by 2^32 lies in [0, 1), and strictly above 0 for a non-zero word |
| `Rng.DrawAt` | js/game.js:187-192 | every number the generator returns lies in [0, 1) |
| `Rng.DrawAtIterate` | js/game.js:187-192 | the n-th number returned is the draw of the state n steps after the seeded one |
| `Rng.DrawsInOpenUnitInterval` | js/game.js:185-192 | for every seed, every number returned lies strictly between 0 and 1 |
| `Rng.Generator.constructor` | js/game.js:185-186 | a fresh generator's state is the seed's starting state, with no draws made |
| `Rng.Generator.Next` | js/game.js:187-192 | one call advances the state by one step and returns the next number of the seeded stream |
| `Geometry.RectsOverlap` | js/game.js:219-221 | the four strict comparisons of the overlap test; the lemmas below state what they mean |
| `Geometry.OverlapIsBothAxes` | js/game.js:219-221 | two boxes overlap exactly when their spans meet on the x axis and on the y axis |
| `Geometry.OverlapSymmetric` | js/game.js:219-221 | the test gives the same answer with the boxes swapped |
| `Geometry.TouchingEdgesDoNotOverlap` | js/game.js:219-221 | boxes that only share an edge do not overlap |
| `Geometry.FlatBoxes` | js/game.js:219-221 | two boxes flat along the same axis never overlap; a flat box overlaps only when strictly inside the other's span |
| `Geometry.GapDecidesOverlap` | js/game.js:219-221 | boxes with any positive gap between them on one axis do not overlap; a corner of a box with positive size inside the other box means overlap |
| `Rules.NewObstacle` | js/game.js:209-212 | a spawned obstacle is 20 to 43 wide and 20 to 59 tall, placed up to 80 beyond the right edge, and tall exactly when its draw is below 0.15 |
| `Rules.NewPowerUp` | js/game.js:214-215 | a spawned power-up floats 60 above the ground with radius 10, 40 to 160 beyond the right edge, and is a shield exactly when its draw is below 0.5 |
| `Rules.Spawn` | js/game.js:207-217 | a spawn appends exactly one obstacle and keeps the others; it appends a power-up exactly when the fifth draw is below 0.18; it uses 5 draws without a power-up and 7 with one; nothing else changes |
| `Rules.ObstacleSpawn` | js/game.js:208-212 | four draws shape a new obstacle pushed at the end of the list; its sizes and placement are stated by `Rules.NewObstacle` and `Rules.Spawn` |
| `Rules.PowerUpSpawn` | js/game.js:213-216 | one roll and, when it is below 0.18, two draws that push a new power-up; `Rules.Spawn` states the outcome |
| `Rules.SpawnTimes` | js/game.js:317 | the opening loop of `n` spawns in a row; `Rules.SpawnTimesAdds` states what n spawns add |
| `Rules.SpawnTimesLast` | js/game.js:317 | n + 1 spawns are n spawns followed by one more |
| `Rules.SpawnKeepsShapes` | js/game.js:207-217 | spawning keeps every obstacle well sized and every power-up well shaped |
| `Rules.SpawnTimesAdds` | js/game.js:317 | n spawns add exactly n obstacles and at most n power-ups after the existing ones, use 5n to 7n draws, and change nothing else |
| `Rules.Window` | js/game.js:261 | the spawn window `floor(50 + 60 * draw)` is between 50 and 109 ticks |
| `Rules.Tick` | js/game.js:245-252 | the tick counter and speed grow, gravity follows `0.6 + min(t / 6000, 0.4)`, slow motion counts down; `Rules.LiveStep` states the bounds |
| `Rules.EffectiveSpeed` | js/game.js:251 | the distance of this frame, taken before slow motion counts down: the new speed, times 0.6 while slow motion lasts; `Session.Game.Advance` returns it |
| `Rules.Fall` | js/game.js:255-258 | after the player update the player is never below the ground; landing stops the fall; the charge grows by exactly 0.9 when charging on the ground and is unchanged otherwise |
| `Rules.PlayerPhase` | js/game.js:254-258 | the player part of a frame under this frame's gravity; `Rules.StepPreservesInv` keeps the player above the ground |
| `Rules.Cadence` | js/game.js:260-262 | one cadence draw, and a spawn when the tick counter is a multiple of the window; `Rules.CadenceKeepsShapes` states it |
| `Rules.Visible` | js/game.js:266 | an obstacle stays while its right edge `x + w` is not left of 0; `Rules.MovedKeepsExactlyVisible` states that the loop keeps exactly these |
| `Rules.Moved` | js/game.js:265-267 | the obstacle loop never adds obstacles and keeps only obstacles still on screen |
| `Rules.MovedKeepsExactlyVisible` | js/game.js:265-267 | an obstacle survives the move loop exactly when its moved copy is still on screen |
| `Rules.Touches` | js/game.js:270 | the overlap test of the player box (90, y - 28, 28, 28) with the power-up's bounding square (x - r, y - r, 2r, 2r) |
| `Rules.PickedUp` | js/game.js:269-270 | a power-up moved left by the tick's distance is picked up when it is still on screen (`x + r` not below 0) and touches the player; `Rules.SweptPicksUpExactly` states that pickups grant exactly these |
| `Rules.Swept` | js/game.js:268-274 | the power-up loop run back to front over the list; `Rules.SweptPicksUpExactly`, `Rules.SweptKeepsUntouched`, `Rules.SweptKeepsEveryUntouched` and `Rules.SweptKeepsMovedOnes` state what it keeps and grants |
| `Rules.Sift` | js/game.js:269-273 | one turn of the power-up loop on one moved power-up; the four `Rules.Swept…` lemmas state what the loop keeps and grants |
| `Rules.SweptPicksUpExactly` | js/game.js:268-274 | the shield (the slow motion) is started exactly when some power-up of that kind is still on screen after the move and touches the player |
| `Rules.SweptKeepsUntouched` | js/game.js:268-274 | every power-up the loop keeps is on screen and out of the player's reach |
| `Rules.SweptKeepsEveryUntouched` | js/game.js:268-274 | every power-up whose moved copy is on screen and not touched is kept: the loop drops only what left the screen or was picked up |
| `Rules.SweptKeepsMovedOnes` | js/game.js:268-274 | every power-up the loop keeps is one of the old ones moved left by the tick's speed |
| `Rules.MovePhase` | js/game.js:264-274 | both move loops on the world: the obstacle loop, the power-up loop, and the countdown each pickup restarts; `Rules.MovePhaseKeeps` states what they leave |
| `Rules.ShieldPhase` | js/game.js:275 | the shield counts down by one while it lasts; `Rules.StepPreservesInv` keeps it between 0 and 600 |
| `Rules.CollideOne` | js/game.js:279-283 | one turn of the collision loop: no hit changes nothing, a hit with shield spends it and moves the obstacle to -9999, a hit without shield ends the run |
| `Rules.Hits` | js/game.js:279 | the overlap test of the player box (90, y - 28, 28, 28) with the obstacle box (x, ground - h, w, h) |
| `Rules.Collided` | js/game.js:278-284 | the collision loop keeps the number of obstacles |
| `Rules.CollideTurn` | js/game.js:279-283 | one turn of the in-place collision loop at index i: only obstacle i, the shield and liveness change |
| `Rules.CollideUpTo` | js/game.js:278-284 | the in-place collision loop after its first i turns; `Rules.CollideUpToAgrees` and `Rules.CollideUpToAll` relate it to the collision loop, and `Session.Game.CheckCollisions` is proved against it |
| `Rules.CollideUpToAgrees` | js/game.js:278-284 | after i turns of the in-place loop, running the collision loop on the obstacles from i on, from the shield and liveness reached, gives the result of the whole collision loop |
| `Rules.CollideUpToAll` | js/game.js:278-284 | the in-place loop run to the end gives the result of the collision loop |
| `Rules.CollisionOutcome` | js/game.js:278-284 | the run survives exactly when there is no hit, or one hit with the shield up; the shield is spent by any hit; every obstacle is unchanged or a hit one moved to -9999 |
| `Rules.ShieldAbsorbsOneHit` | js/game.js:280-281 | with the shield up, a single hit leaves the run alive, spends the shield and moves the hit obstacle off screen |
| `Rules.OnlyHitIsNeutralised` | js/game.js:281 | with the shield up and a single hit, the obstacle hit is the one moved to -9999 |
| `Rules.HitCountPositive` | js/game.js:279-280 | an obstacle that the player hits is counted as a hit |
| `Rules.UnshieldedHitEndsRun` | js/game.js:282 | without a shield any hit ends the run |
| `Rules.CollidePhase` | js/game.js:277-284 | the collision loop applied to the world's obstacles, shield and liveness; `Rules.CollisionOutcome` states the outcome |
| `Rules.Scored` | js/game.js:287-288 | one point, half a point in slow motion, and best is the larger of best and the whole score; `Rules.ScoreNeverDecreases` states that neither goes down |
| `Rules.MotionPhase` | js/game.js:245-274 | the first half of a live frame in the source order: difficulty, player, spawn cadence, both move loops |
| `Rules.SettlePhase` | js/game.js:275-288 | the second half of a live frame: shield countdown, collisions, score |
| `Rules.StepWorld` | js/game.js:242-293 | one call of the per-frame update: a finished run is left alone, a live one goes through every phase; `Rules.StepPreservesInv` and `Rules.LiveStep` state what a frame does |
| `Rules.Initial` | js/game.js:201-205 | the page starts gated, with the player on the ground, and the invariant holds |
| `Rules.DeadStepUnchanged` | js/game.js:243 | a frame of a finished run changes nothing |
| `Rules.StepPreservesInv` | js/game.js:242-293 | every frame keeps the invariant: countdowns in range, speed at least 5, gravity between 0.6 and 1, best at least the whole score, the player not below the ground, shapes of all entities |
| `Rules.CadenceKeepsShapes` | js/game.js:260-262 | the cadence draw spawns exactly when the tick counter is a multiple of the window, keeps the shapes and changes only the lists and the generator |
| `Rules.MovePhaseKeeps` | js/game.js:264-274 | after both move loops every obstacle and power-up is on screen and keeps its shape, and a countdown only restarts at its full length |
| `Rules.CollidedKeepsShapes` | js/game.js:277-284 | after the collision loop every obstacle is well sized and either on screen or moved to -9999 |
| `Rules.LiveStep` | js/game.js:245-288 | a live frame advances the tick by 1 and the speed by 0.0009, keeps gravity in (0.6, 1], adds 1 to the score (0.5 in slow motion), sets best to the larger of best and the whole score, and lands the player |
| `Rules.ScoreNeverDecreases` | js/game.js:287-288 | no frame lowers the score or the best score |
| `Rules.ResetRun` | js/game.js:315-317 | the reset of a new run: fresh generator from the seed, counters and difficulty at their start, both lists empty |
| `Rules.StartRun` | js/game.js:313-318 | the reset followed by six spawns; `Rules.StartRunResets` states what a new run starts from |
| `Rules.StartRunResets` | js/game.js:313-320 | a new run starts live with exactly 6 obstacles and at most 6 power-ups, every counter at its start, best and the player untouched, and the invariant holding |
| `Rules.ReleaseVelocity` | js/game.js:301 | a released jump's vertical speed lies between -18 and -6 for any non-negative charge, and is -18 exactly from a charge of 96 |
| `Rules.ReleaseMonotone` | js/game.js:301 | more charge never gives a weaker jump |
| `Rules.ButtonsFor` | js/game.js:138-142 | submit is enabled exactly with a signer, a non-zero game ID and a finished run; verify exactly with a signer and a non-zero game ID |
| `Rules.SubmitImpliesVerify` | js/game.js:138-142 | submit is never enabled while verify is disabled or a run is live |
| `Rules.GameIdOf` | js/game.js:148 | the game ID is below 10^9, at most the digest, and congruent to the digest modulo 10^9 |
| `Session.Game.constructor` | js/game.js:201-205 | the page on load: no wallet, no game ID, no run and the initial world; the buttons start disabled as the page markup is assumed to set them |
| `Session.Game.UpdateButtons` | js/game.js:138-142 | the buttons follow the gating rule |
| `Session.Game.SpawnObstacle` | js/game.js:207-217 | one spawn changes the game as `Rules.Spawn` does |
| `Session.Game.AddObstacle` | js/game.js:208-212 | four draws append the obstacle they shape |
| `Session.Game.RollPowerUp` | js/game.js:213-216 | the power-up roll appends a power-up with chance 0.18, shaped by two more draws |
| `Session.Game.MoveObstacles` | js/game.js:265-267 | the back-to-front splice loop leaves exactly `Rules.Moved` of the old obstacles |
| `Session.Game.MovePowerUps` | js/game.js:268-274 | the back-to-front loop leaves exactly the swept power-ups and sets the shield to 600 or the slow motion to 360 exactly when one of that kind is picked up |
| `Session.Game.PickUp` | js/game.js:269-273 | one turn of the power-up loop: an off-screen power-up goes, a touched one starts its countdown and goes, any other stays |
| `Session.Game.Collide` | js/game.js:277-284 | the collision phase changes the game as `Rules.CollidePhase` does and keeps the buttons current |
| `Session.Game.CheckCollisions` | js/game.js:278-284 | the in-place front-to-back loop leaves the obstacles, shield and liveness of the collision loop |
| `Session.Game.CollideAt` | js/game.js:279-283 | one turn of the collision loop, with the buttons updated when the run ends |
| `Session.Game.Advance` | js/game.js:245-252 | the tick, the speed, gravity and the slow-motion countdown advance; the distance moved this frame is returned |
| `Session.Game.MovePlayer` | js/game.js:255-258 | the player moves as `Rules.Fall` says |
| `Session.Game.SpawnCadence` | js/game.js:260-262 | one cadence draw, and a spawn when the tick counter is a multiple of the window |
| `Session.Game.Step` | js/game.js:242-293 | one frame changes the game exactly as `Rules.StepWorld` does and keeps the invariant and the buttons current |
| `Session.Game.Move` | js/game.js:245-274 | the first half of a frame, as `Rules.MotionPhase` |
| `Session.Game.MoveEntities` | js/game.js:264-274 | both move loops, as `Rules.MovePhase` |
| `Session.Game.Settle` | js/game.js:275-288 | the shield countdown, the collisions and the score, as `Rules.SettlePhase` |
| `Session.Game.CountDownShield` | js/game.js:275 | the shield counts down while it lasts |
| `Session.Game.AddScore` | js/game.js:287-288 | the score and the best score, as `Rules.Scored` |
| `Session.Game.SpawnOpening` | js/game.js:317 | six spawns in a row, as `Rules.SpawnTimes` |
| `Session.Game.StartNewRun` | js/game.js:313-320 | a new run changes the game exactly as `Rules.StartRun`, records the nonce and seed, and leaves the game valid and live |
| `Session.Game.BeginRun` | js/game.js:315-318 | the reset, the six opening spawns and the button update |
| `Session.Game.Reset` | js/game.js:315-317 | a fresh generator and every counter of the run back to its start, as `Rules.ResetRun` |
| `Session.Game.Reseed` | js/game.js:315 | a fresh generator seeded from the run seed |
| `Session.Game.ResetCounters` | js/game.js:316 | tick, liveness, score, speed and gravity back to their start |
| `Session.Game.ResetEffects` | js/game.js:316-317 | no shield, no slow motion, no obstacles, no power-ups |
| `Session.Game.KeyDown` | js/game.js:296-309 | during a run an up key starts charging and other keys change nothing; after a run any key starts a new one, with its nonce and seed recorded, exactly when a wallet and a game ID were there; the wallet and game ID never change |
| `Session.Game.PointerDown` | js/game.js:305-310 | during a run a press starts charging; after a run it starts a new one, with its nonce and seed recorded, exactly when a wallet and a game ID were there; the wallet and game ID never change |
| `Session.Game.Release` | js/game.js:300-302 | a release sets the vertical speed from the charge and clears the charge |
| `Session.Game.KeyUp` | js/game.js:299-304 | an up key released during a run releases the jump; nothing else changes the player |
| `Session.Game.PointerUp` | js/game.js:306-308 | a release during a run releases the jump; nothing else changes the player |
| `Session.Game.ConnectWallet` | js/game.js:127-130 | a connected wallet gives a signer, and the buttons follow |
| `Session.Game.ClaimGameId` | js/game.js:144-153 | claiming sets the game ID to the digest modulo 10^9 and starts a live run with submit disabled, recording the run's nonce and seed |

## Left out

- Network, wallet and chain calls are not modelled: `ensureWallet` (only its successful outcome, `ConnectWallet`), `getDailyBlockHash`, `computeSeed`, and the verify and submit handlers (js/game.js:323-356). The keccak run seed, the run nonce and the wallet digest are parameters; the seed is below 2^256 and the nonce below 10^9.
- `Math.random` as the generator before the first run (js/game.js:208, 261) is not modelled. The model only spawns once a run has started and `rand` exists.
- Drawing (`drawFrame`), the score and best text, logging and `preventDefault` are not modelled.
- `requestAnimationFrame` scheduling is not modelled. `Step` is one call of `step`, so the model does not capture two animation loops running at once after repeated restarts. The `await` in `startNewRun` is not modelled either: the handler is modelled from the moment the seed is known, so input arriving while the seed is fetched is not interleaved.
- IEEE double rounding is not modelled: positions, speeds, gravity, the score and the draws are exact reals. A draw is exactly the state divided by 2^32.
- The player's x, width and height never change in the source, so they are constants. Obstacles and power-ups are values in a sequence rather than shared objects; the in-place `o.x` and `p.x` updates become sequence updates.
- The generator's period and the invertibility of xorshift32 are not proved.
- `js/gameid.js` is not part of this model.
- The buttons' state on page load comes from the page markup, which is not part of this model; the constructor assumes both start disabled, as `updateButtons` would set them with no wallet and no game ID.
- Rng.InitialState: does not state that a seed with a non-zero residue starts exactly from that residue, only that the state is non-zero and below the prime. The conversion from integer to 32-bit word makes that statement too costly for the solver. `Rng.SameResidueSameStream` states the determinism it implies.
