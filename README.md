# Garden Defense rule layer in Dafny

This project models the rule layer of Garden Defense, a browser tower-defense game. It verifies the following parts:

- **Placement.** Where a tower or a trap may be placed: margins, the hero limit, the covered garden's open quadrant, the distance to the path, collisions, water, stumps and the glass floor.
- **Damage.** How much a hit does to armoured, reinforced and other enemies.
- **Waves.** How a wave's spawn queue is made up: boss, sneaks, weighted regular draws and a shuffle.
- **Towers and enemies.** How towers are priced, upgraded, merged into a paragon and sold, and how enemies are created.
- **Enemy effects and movement.** How freeze, burn and void tick, and how an enemy moves along its path.
- **The game loop.** One frame in order: spawner, enemies, towers, projectiles, end of wave, frame counter, game over.
- **The player's intents.** Clicking the canvas, starting or pausing a wave, upgrading and selling.

Modules:

- `GameConstants` (constants.dfy): the tuning constants and the static records (tower types, enemy types, maps, balance data).
- `Geometry` (geometry.dfy): point-to-segment distance, the water polygon test and the glass quadrants.
- `GameLogic` (gamelogic.dfy): placement, damage, wave composition, upgrade cost and sell value.
- `EntityFactories` (entities.dfy):
  - the `Tower` class, with its in-place `upgrade`;
  - the `Enemy` class, with its in-place status and movement updates;
  - the pure helpers of the factory file.
- `Lists` (lists.dfy): distinctness and `Array.prototype.filter` over sequences.
- `Combat` (combat.dfy):
  - the spawner;
  - the tower phase (cooldowns, bank income, targeting, firing);
  - the `Projectile` class and the projectile phase.
- `GameEngine` (engine.dfy):
  - the `Game` class, holding the state the container component keeps between frames;
  - its intent handlers;
  - the enemy phase and the frame loop.

**How the source is modelled:**

- **Mutable objects.** The source keeps towers, enemies and projectiles as mutable JavaScript objects in lists. They are Dafny classes here, and the phases change them in place through `modifies` clauses. Each loop (the enemy filter, the tower `forEach`, the projectile filter, the wave-composition loops) is a `while` loop with invariants. Each loop is proved against a pure specification function over a snapshot of the state taken when the phase starts: `Nexts`/`Fates`, `Reloads`/`Volley`/`BankIncome` and `Flying`/`StruckBy`.
- **Distances.** Every distance test compares squares, which is exact for non-negative distances. `Math.hypot(a) < d` becomes `SqDist < d * d`. `GameConstants.DistanceComparisons` proves this equivalence.
- **Randomness.** Each `Math.random()` draw of the wave composition is a parameter. So are the choices of the shuffle.
- **Movement step.** The normalised move `x += dx / dist * speed` is a function parameter `step`.

## Model

| member | source | states |
|---|---|---|
| GameConstants.DistanceComparisons | src/utils/gameLogic.js:10-18 | for r ≥ 0 with r² = squared distance, `r < d` iff the points are `CloserThan` d, and `r ≤ d` iff they are `WithinDistance` d, so the hypot tests of the source are the squared tests of the model |
| GameConstants.SquareMonotone | src/utils/gameLogic.js:10-18 | on non-negative reals, `u < v` iff `u² < v²`, and likewise for `≤` |
| Geometry.Clamp01 | src/utils/gameLogic.js:15 | the clamped parameter lies in [0, 1] and is the input itself when the input already lies there |
| Geometry.ProjectionParam | src/utils/gameLogic.js:14-15 | the projection parameter of p onto segment ab always lies in [0, 1] |
| Geometry.PointToSegmentDistSq | src/utils/gameLogic.js:10-18 | the squared distance is non-negative, and for a zero-length segment it is the squared distance to the endpoint |
| Geometry.SegmentDistanceIsMinimum | src/utils/gameLogic.js:10-18 | the computed distance is no larger than the distance to any point `Lerp(a, b, t)` of the segment, for every t in [0, 1] |
| Geometry.SegmentDistanceIsAttained | src/utils/gameLogic.js:10-18 | some point of the segment is at exactly the computed distance, so it is the true minimum |
| Geometry.SegmentDistanceAtMostEndpoints | src/utils/gameLogic.js:10-18 | the distance to the segment never exceeds the distance to either endpoint |
| Geometry.NormalizeToCanvas | src/utils/gameLogic.js:25-26 | normalising a canvas point scaled from p gives p back, for a positive canvas size |
| Geometry.IsPointInWater | src/utils/gameLogic.js:24-41 | the ray-casting loops return true iff the glass floor is on or the normalised point lies in some zone by crossing parity (`InWater`) |
| Geometry.OutsideVerticalExtent | src/utils/gameLogic.js:31-37 | a point above or below every vertex of a zone crosses no edge, so it is never inside that zone |
| Geometry.RainforestRiverHoldsCentre | src/data/maps.js:29-30 | the rainforest river polygon contains the point (0.5, 0.5) by the ray-casting rule |
| Geometry.Quadrant | src/utils/gameLogic.js:46-54 | every point falls in one of the quadrants 0 to 3 |
| Geometry.IsUnderGlass | src/utils/gameLogic.js:46-57 | with no open quadrant (`null`) every point is under glass |
| Geometry.ExactlyOneOpenQuadrant | src/utils/gameLogic.js:46-57 | for every point, exactly one of the four possible open quadrants leaves it outside the glass |
| GameLogic.ScanPaths | src/utils/gameLogic.js:95-104 | the segment loops report "too close" iff the tower is not a trap and some segment of some path is nearer than 40 pixels; otherwise `onPath` holds iff some segment is nearer than 35 pixels |
| GameLogic.IsValidPlacement | src/utils/gameLogic.js:63-155 | the imperative check returns exactly the verdict of the ordered rule function `Placement` |
| GameLogic.ValidPlacementMeans | src/utils/gameLogic.js:77-154 | an accepted point is inside the margins, respects the hero limit, lies in the open quadrant of a covered map, collides with no tower, lies near the path if it is a trap and clear of every segment otherwise, keeps a water-only tower off the stump, puts a water-only non-amphibious tower in water, and keeps a non-amphibious land tower that is off the stump out of water on a map without a glass floor |
| GameLogic.PlacementOrder | src/utils/gameLogic.js:77-154 | each refusal reason is returned only when every earlier check has passed and its own check fails |
| GameLogic.CoveredMapWithoutOpenQuadrant | src/utils/gameLogic.js:90-92 | on a covered map with no open quadrant given, every point that passes the margin and hero checks is refused as under glass |
| GameLogic.CalculateDamage | src/utils/gameLogic.js:160-187 | a hit is resisted iff the target is the reinforced ninja and the effect is not one that hurts it, or the target is armoured and the effect does not pierce armour; an unresisted hit does the raw damage, a resisted ninja hit does 1, and a resisted armoured hit does max(1, floor(raw · 0.2)) |
| GameLogic.ResistedHitsAreNoStronger | src/utils/gameLogic.js:160-187 | for raw damage of at least 1, every hit does between 1 and the raw damage |
| GameLogic.ArmoredDamage | src/utils/gameLogic.js:176-184 | a non-piercing hit on an armoured non-ninja target does exactly max(1, floor(raw · 0.2)) |
| GameLogic.CeilDiv10 | src/utils/gameLogic.js:209 | the result c is `Math.ceil(n / 10)`: 10(c − 1) < n ≤ 10c |
| GameLogic.BossEntries | src/utils/gameLogic.js:199-205 | at most one boss, and one exactly when the wave number is a multiple of 10 |
| GameLogic.SneakEntries | src/utils/gameLogic.js:208-213 | ceil(n / 10) sneaks when the sneak interval divides n (never when the interval is 0), otherwise none; every entry is `"sneak"` |
| GameLogic.Repeat | src/utils/gameLogic.js:210-212 | k copies of one id |
| GameLogic.PickFrom | src/utils/gameLogic.js:232-238 | the scan finds nothing iff the draw reaches every remaining cumulative weight; otherwise it picks the id of an entry whose weight exceeds the draw |
| GameLogic.PickEntry | src/utils/gameLogic.js:230-239 | the inner weight loop pushes exactly the entry `PickFrom` selects, or nothing |
| GameLogic.PushRegularEntries | src/utils/gameLogic.js:229-240 | the slot loop appends exactly `RegularEntries(pool, draws)`, one draw per slot |
| GameLogic.PushBoss | src/utils/gameLogic.js:199-205 | the boss step pushes exactly `BossEntries` |
| GameLogic.PushSneaks | src/utils/gameLogic.js:208-213 | the sneak loop appends exactly `SneakEntries` |
| GameLogic.Shuffle | src/utils/gameLogic.js:243 | the in-place shuffle of the array is a permutation of its old contents |
| GameLogic.ShuffleQueue | src/utils/gameLogic.js:243 | the shuffled queue is a permutation of the queue built so far |
| GameLogic.GenerateWaveComposition | src/utils/gameLogic.js:193-246 | the returned queue is a permutation of boss, sneaks and regular draws in that order (`Unshuffled`) |
| GameLogic.RegularEntriesSnoc | src/utils/gameLogic.js:229-240 | one more draw appends exactly the entry it picks, if any |
| GameLogic.RegularEntriesBounded | src/utils/gameLogic.js:229-240 | the slots add at most one entry each, and every entry is the id of some entry of the pool |
| GameLogic.RegularEntriesExact | src/utils/gameLogic.js:229-240 | when every draw falls below some cumulative weight, every slot adds exactly one entry |
| GameLogic.WaveSize | src/utils/gameLogic.js:193-246 | the pre-shuffle queue holds at most one boss, the sneaks and at most `count` regulars |
| GameLogic.UpgradeCost | src/utils/gameLogic.js:251-255 | a paragon's upgrade costs 999999; otherwise the cost is floor(cost · 0.75 · level) |
| GameLogic.SellValue | src/utils/gameLogic.js:260-263 | the value is floor(investment · 0.7) |
| GameLogic.SellValueBounds | src/utils/gameLogic.js:260-263 | a non-negative investment sells for a non-negative amount no larger than the investment, and for strictly less when the investment is positive |
| GameLogic.SellValueMonotone | src/utils/gameLogic.js:260-263 | more investment never sells for less |
| GameLogic.UpgradeCostMonotone | src/utils/gameLogic.js:251-255 | a higher level never costs less to upgrade |
| EntityFactories.Tower.Create | src/utils/entityFactories.js:11-23 | a new tower stands at level 1 with its type's damage and range, zero cooldown, and the type's price as its investment; it is valid and paid up |
| EntityFactories.Tower.Merge | src/utils/entityFactories.js:206-220 | the paragon stands at the centroid of the three towers with the first tower's other fields, is at level 1 with 5× damage and 1.5× range, and its investment is the sum of the three |
| EntityFactories.Tower.Copy | src/containers/GameEngineContainer.jsx:158 | the spread copy is a new object whose fields equal the original's |
| EntityFactories.Tower.Upgrade | src/utils/entityFactories.js:35-42 | a paragon is untouched; otherwise the level rises by one, damage × 1.4, range × 1.1, and the investment grows by the cost at the old level; validity and "paid up" are preserved, and the sell value never falls |
| EntityFactories.Tower.UpgradeInline | src/containers/GameEngineContainer.jsx:122-128 | a paragon is untouched; otherwise level + 1, damage × 1.4 and range × 1.1, but the investment grows by the cost at the new level, so it is `InlineInvestment`, not what was paid |
| EntityFactories.UpgradeCostIncreases | src/utils/entityFactories.js:25-29 | each level's upgrade costs strictly more than the one before, for a type with a price of at least 2 |
| EntityFactories.InlineOvercounts | src/containers/GameEngineContainer.jsx:122-128 | after one or more inline upgrades the recorded investment exceeds what was paid, by the sum of the per-level cost differences |
| EntityFactories.InlineUpgradeSellsAtProfit | src/containers/GameEngineContainer.jsx:122-128 | a 100-coin tower upgraded twice inline was paid 325 but records 475, and sells for 332, more than was paid |
| EntityFactories.PaidAtLeastPrice | src/utils/entityFactories.js:35-42 | what a tower has been paid at any level is at least its price |
| EntityFactories.MergeKeepsSellValue | src/utils/entityFactories.js:218 | a paragon sells for at least the three towers' sell values together |
| EntityFactories.ReadyIndices | src/utils/entityFactories.js:194-198 | the positions, in increasing board order, of exactly the towers of the target type at level ≥ 10 that are not paragons |
| EntityFactories.Eligible | src/utils/entityFactories.js:194-198 | the filter's result has one entry per ready position, and its k-th entry is the tower at the k-th ready position, so board order is kept |
| EntityFactories.EligibleExactly | src/utils/entityFactories.js:194-198 | a tower is kept iff it is listed, of the target type, at level ≥ 10 and not a paragon |
| EntityFactories.FindParagonCandidates | src/utils/entityFactories.js:193-201 | null iff fewer than three towers are eligible; otherwise the towers at the first three ready positions, in board order |
| EntityFactories.CandidatesComeFirst | src/utils/entityFactories.js:193-201 | the three candidates stand at positions i0 < i1 < i2 of the board, all three ready, and no other ready tower stands before i2 |
| EntityFactories.Enemy.Create | src/containers/GameEngineContainer.jsx:205-232 | the spawned enemy stands at the path's start in pixels, with health base · (1 + wave · growth), speed scaled by difficulty, no effects, at waypoint 0; it is stealthed iff its category is stealth, boss iff boss, armoured iff its category is armoured or its id contains "reinforced" |
| EntityFactories.Enemy.UpdateStatusEffects | src/utils/entityFactories.js:96-121 | the status fields move to `StatusStep` of the old ones: freeze, then burn, then void |
| EntityFactories.Enemy.TickFreeze | src/utils/entityFactories.js:98-101 | the status moves by the freeze step alone |
| EntityFactories.Enemy.TickBurn | src/utils/entityFactories.js:104-114 | the status moves by the burn step alone |
| EntityFactories.Enemy.TickVoid | src/utils/entityFactories.js:117-120 | the status moves by the void step alone |
| EntityFactories.TimersCountDown | src/utils/entityFactories.js:96-121 | each timer decreases by one while its flag is set and is otherwise unchanged; a flag clears exactly when its timer reaches 0 |
| EntityFactories.BurnTicks | src/utils/entityFactories.js:104-114 | burn damage of 5 lands exactly when the burning tick counter reaches 15, which then resets; otherwise health is unchanged |
| EntityFactories.FreezeIndependent | src/utils/entityFactories.js:98-101 | the freeze fields after a step depend only on the freeze fields before it |
| EntityFactories.BurnIndependent | src/utils/entityFactories.js:104-114 | the burn fields and the health lost depend only on the burn fields before the step |
| EntityFactories.VoidIndependent | src/utils/entityFactories.js:117-120 | the void fields after a step depend only on the void fields before it |
| EntityFactories.BurnDamageOverTime | src/utils/entityFactories.js:104-114 | over k ≤ T frames of a burn with T frames left, the enemy takes 5 damage for every 15th tick |
| EntityFactories.FullBurn | src/utils/entityFactories.js:104-114 | a fresh 120-frame burn does 40 damage in all and then ends |
| EntityFactories.Enemy.UpdateMovement | src/utils/entityFactories.js:127-154 | the motion fields move to `MoveStep` of the old ones (stay when voided, report the end of the path, else advance a waypoint or step toward it at the frozen or normal speed); the status is unchanged |
| EntityFactories.MovementProgress | src/utils/entityFactories.js:127-154 | the waypoint index never decreases and grows by at most one; a voided enemy or one that reached the end does not move |
| EntityFactories.LivesDamage | src/utils/entityFactories.js:84-91 | a leak costs at least 1 life, and exactly 1 iff the enemy is not a boss |
| EntityFactories.LivesDamageOrder | src/utils/entityFactories.js:84-91 | emperor > king > any other boss > any non-boss |
| EntityFactories.ReinforcedNinjaIsArmored | src/containers/GameEngineContainer.jsx:229 | the reinforced ninja's id contains "reinforced", so it always spawns armoured |
| EntityFactories.CheckTrapActivation | src/utils/entityFactories.js:180-187 | nothing for a non-trap or a used trap; otherwise the first enemy within the trap's range, and nothing only when no enemy is within it |
| EntityFactories.FirstWithin | src/utils/entityFactories.js:183-186 | the result is a listed enemy within the distance with none before it, or nothing when none is within it |
| EntityFactories.CreateSoldier | src/utils/entityFactories.js:159-175 | a soldier of a level-L barracks has 100·L health, full, and 10·L damage, with its timers at 0 |
| Lists.KeepExactly | src/containers/GameEngineContainer.jsx:239 | `filter` over distinct elements keeps an element iff its mask entry is set, and the result stays distinct |
| Combat.SpawnStepBounds | src/containers/GameEngineContainer.jsx:196-235 | the spawn timer stays below 40; an id is released iff the wave is active, the queue is non-empty and the timer was at 39; the release is the front of the queue; otherwise the queue is unchanged |
| Combat.OneSpawnPerDelay | src/containers/GameEngineContainer.jsx:196-201 | with t frames counted, the next release comes exactly 40 − t frames later and is the front of the queue |
| Combat.SpawnStepsAdd | src/containers/GameEngineContainer.jsx:196-201 | running the spawner m frames then n frames is running it m + n frames |
| Combat.QueueReleasedInOrder | src/containers/GameEngineContainer.jsx:196-201 | from a fresh timer, k · 40 frames release exactly the first k queued ids in order |
| Combat.Projectile.Fire | src/containers/GameEngineContainer.jsx:320-334 | the projectile starts at the tower, chases the target, and carries the tower's damage, effect and paragon flag and its type's speed (8 when none is given) |
| Combat.TowerFrameRules | src/containers/GameEngineContainer.jsx:300-338 | a tower fires iff its cooldown has run out, an enemy is in sight and it is neither trap nor bank; firing reloads to the type's cooldown, otherwise the cooldown counts down to 0; a bank earns 20 exactly on the ticks its cooldown divides; nothing both fires and earns |
| Combat.VolleysAdd | src/containers/GameEngineContainer.jsx:300-338 | the fire schedule over m + n frames is the one over m frames followed by the one over n frames |
| Combat.ReloadBlock | src/containers/GameEngineContainer.jsx:301-333 | a reloading tower with c frames to go, with an enemy always in sight, fires exactly once in c frames and is then fully reloaded |
| Combat.FireRate | src/containers/GameEngineContainer.jsx:301-333 | a new armed tower with an enemy always in sight fires on its first frame and then once every `cooldown` frames |
| Combat.FirstTarget | src/containers/GameEngineContainer.jsx:311-318 | any index returned is an index of the enemy list |
| Combat.FirstTargetIsFirst | src/containers/GameEngineContainer.jsx:311-318 | the target is an enemy in range, visible to the tower (not stealthed, or the tower detects camo), with no such enemy before it; nothing is found only when no enemy qualifies |
| Combat.TargetsAt | src/containers/GameEngineContainer.jsx:311-318 | each tower's entry in the targets is its own first target |
| Combat.TargetsAmong | src/containers/GameEngineContainer.jsx:311-318 | every target is one of the enemies |
| Combat.ReloadAt | src/containers/GameEngineContainer.jsx:301-333 | each tower's entry in `Reloads` is its own frame's cooldown |
| Combat.BankIncome | src/containers/GameEngineContainer.jsx:304-308 | the banks' income is never negative |
| Combat.BankIncomeZero | src/containers/GameEngineContainer.jsx:304-308 | the towers earn nothing iff no tower is a bank paying on this tick |
| Combat.IncomeSnoc | src/containers/GameEngineContainer.jsx:304-308 | one more tower adds 20 exactly when it pays on this tick |
| Combat.Volley | src/containers/GameEngineContainer.jsx:320-334 | at most one projectile per tower |
| Combat.VolleySnoc | src/containers/GameEngineContainer.jsx:320-334 | one more tower appends its shot exactly when its frame fires |
| Combat.VolleyAmong | src/containers/GameEngineContainer.jsx:320-334 | every shot of the volley chases one of the enemies |
| Combat.ShotsAmong | src/containers/GameEngineContainer.jsx:320-334 | projectiles that launch a volley chase only the enemies |
| Combat.TowerTurn | src/containers/GameEngineContainer.jsx:300-338 | one tower's frame sets its cooldown, income and shot as `TowerFrame` with its first target says, and the shot is a new projectile launched at that target |
| Combat.TowerStep | src/containers/GameEngineContainer.jsx:300-338 | the i-th tower's frame in the loop: its cooldown, income and shot agree with its `TowerFrame` against the targets taken at the start of the phase |
| Combat.Tally | src/containers/GameEngineContainer.jsx:304-334 | the income and the shots of the first i + 1 towers extend those of the first i towers by the i-th tower's income and shot |
| Combat.VisitTower | src/containers/GameEngineContainer.jsx:300-338 | one pass of the tower loop keeps its invariant, and every shot is new |
| Combat.TowerLoop | src/containers/GameEngineContainer.jsx:300-338 | after the loop, every tower has its frame's cooldown, the income is `BankIncome` and the shots launch the `Volley`, all new |
| Combat.TowerLoopDone | src/containers/GameEngineContainer.jsx:300-338 | the loop's final state gives each tower its frame's cooldown, the income `BankIncome`, and shots that launch exactly the `Volley` and are distinct |
| Combat.VolleyDone | src/containers/GameEngineContainer.jsx:300-338 | the loop's shots meet `Volleyed` and chase only the enemies |
| Combat.TowerVolleys | src/containers/GameEngineContainer.jsx:300-338 | the towers' phase gives every tower its frame's cooldown against the targets when it started, returns `BankIncome` as income, and returns new, distinct projectiles, one per firing tower in tower order, chasing listed enemies |
| Combat.LaunchesSnoc | src/containers/GameEngineContainer.jsx:320-334 | appending a projectile appends its launch |
| Combat.LaunchAt | src/containers/GameEngineContainer.jsx:320-334 | the j-th launch is the j-th projectile's |
| Combat.Flying | src/containers/GameEngineContainer.jsx:341-371 | one verdict per projectile |
| Combat.FlyingAt | src/containers/GameEngineContainer.jsx:346-347 | a projectile flies on iff its target is not within its speed |
| Combat.StruckBySnoc | src/containers/GameEngineContainer.jsx:346-363 | one more projectile strikes its target after the earlier ones, exactly when it lands |
| Combat.StruckByClosedForm | src/containers/GameEngineContainer.jsx:346-363 | a target loses the sum of the damages of the projectiles that reach it; each of freeze, burn and void is set to its full duration iff some hit carried it, and is otherwise unchanged |
| Combat.EffectLandsSnoc | src/containers/GameEngineContainer.jsx:350-361 | an effect lands among n + 1 projectiles iff it lands among the first n or the last lands carrying it |
| Combat.ProjectileTurn | src/containers/GameEngineContainer.jsx:341-371 | a projectile within reach strikes its target with `calculateDamage` and its effect and is dropped; any other moves one step toward its target |
| Combat.ProjectileStep | src/containers/GameEngineContainer.jsx:341-371 | the i-th projectile's frame keeps the filter's invariant: its position and its target's status follow from the snapshot |
| Combat.VisitProjectile | src/containers/GameEngineContainer.jsx:341-371 | one pass of the projectile filter keeps its invariant |
| Combat.ProjectileLoop | src/containers/GameEngineContainer.jsx:341-371 | after the filter, every projectile has moved or struck as `Flying` and `StruckBy` say, and the kept list is the projectiles still flying |
| Combat.FlyProjectiles | src/containers/GameEngineContainer.jsx:341-371 | the projectile phase: every projectile that did not reach its target moved one step, every target took the hits of the projectiles that reached it in list order, the kept list is exactly the flying projectiles in order, and the towers are untouched |
| GameEngine.Clicked | src/containers/GameEngineContainer.jsx:74-77 | the first tower within 20 pixels of the click, or nothing when none is |
| GameEngine.Without | src/containers/GameEngineContainer.jsx:165 | the towers other than t, in order; the list is unchanged when t is not in it |
| GameEngine.WithoutDistinct | src/containers/GameEngineContainer.jsx:165 | removal from a distinct list keeps it distinct and removes exactly one entry iff t was listed |
| GameEngine.WithoutSpaced | src/containers/GameEngineContainer.jsx:165 | removing a tower never brings two others closer |
| GameEngine.SpacedIsDistinct | src/utils/gameLogic.js:112-117 | a board with the collision spacing never lists the same tower twice |
| GameEngine.SellFromBoard | src/containers/GameEngineContainer.jsx:162-168 | selling from a spaced board of valid towers leaves a spaced board of valid towers, one shorter iff the tower was on it |
| GameEngine.AddKeepsSpacing | src/utils/gameLogic.js:112-117 | a tower clear of every placed tower by its collision radius keeps the board spaced |
| GameEngine.BuildOnBoard | src/containers/GameEngineContainer.jsx:104-138 | adding an accepted valid tower keeps the board spaced and valid |
| GameEngine.ScalePaths | src/containers/GameEngineContainer.jsx:268-271 | the scaled paths have the same shape, with each waypoint multiplied by the canvas size |
| GameEngine.FarFromNormalisedPaths | src/containers/GameEngineContainer.jsx:92-102 | a canvas point inside the margins is never near a path given in normalised units |
| GameEngine.UnscaledPathsNeverMatch | src/containers/GameEngineContainer.jsx:92-102 | as the click handler calls it, the path check never refuses a tower, and a trap inside the margins on an uncovered map is always refused as off the path |
| GameEngine.GardenTowerOnPathAccepted | src/containers/GameEngineContainer.jsx:92-102 | on the garden map, a plain tower clicked onto the first path segment is accepted |
| GameEngine.GardenTowerOnPathRefused | src/utils/gameLogic.js:95-104 | the same click is refused as too close to the path once the paths are in canvas pixels |
| GameEngine.SnapshotAt | src/containers/GameEngineContainer.jsx:239-297 | the snapshot holds each enemy's state at its own index |
| GameEngine.FateOfAnEnemy | src/containers/GameEngineContainer.jsx:239-297 | an enemy leaks iff, after its effects tick, it is not voided and stands at the last waypoint (or has no path); it dies iff it does not leak and its health is gone; a leaking or voided enemy does not move |
| GameEngine.FrameAt | src/containers/GameEngineContainer.jsx:239-297 | the i-th new state and fate are the i-th enemy's frame |
| GameEngine.AliveMaskAt | src/containers/GameEngineContainer.jsx:290-296 | the filter keeps an enemy iff its fate is to stay alive |
| GameEngine.LivesLost | src/containers/GameEngineContainer.jsx:264-267 | the lives lost are never negative, and are zero iff no enemy leaked |
| GameEngine.LivesLostCountsLeaks | src/containers/GameEngineContainer.jsx:264-267 | each leak costs at least one life, and exactly one when no leaked enemy is a boss |
| GameEngine.BountiesNonNegative | src/containers/GameEngineContainer.jsx:290-293 | with non-negative bounties, the kills never cost money |
| GameEngine.LivesLostSnoc | src/containers/GameEngineContainer.jsx:264-267 | one more enemy adds its lives damage exactly when it leaks |
| GameEngine.BountiesSnoc | src/containers/GameEngineContainer.jsx:290-293 | one more enemy adds its bounty exactly when it is killed |
| GameEngine.EnemyTurn | src/containers/GameEngineContainer.jsx:239-297 | one enemy's filter callback moves it to the state its `EnemyFrame` gives and returns its fate |
| GameEngine.EnemyTally | src/containers/GameEngineContainer.jsx:239-297 | survivors, lives lost and bounties of the first i + 1 enemies extend those of the first i |
| GameEngine.VisitEnemy | src/containers/GameEngineContainer.jsx:239-297 | one pass of the enemy filter keeps its invariant |
| GameEngine.EnemyLoop | src/containers/GameEngineContainer.jsx:239-297 | after the filter, every enemy has the state its frame gives it |
| GameEngine.EnemyLoopDone | src/containers/GameEngineContainer.jsx:239-297 | the loop's final state: every enemy has its new state, the survivors are the alive enemies in order, and the lives lost and bounties are `LivesLost` and `Bounties` |
| GameEngine.FilterEnemies | src/containers/GameEngineContainer.jsx:239-297 | the enemy phase over distinct enemies: each has its frame from the states when the phase started; `kept`, `lost` and `bounty` are the survivors, lives cost and bounties of the fates; the towers are untouched |
| GameEngine.AimsJoin | src/containers/GameEngineContainer.jsx:332 | the targets of a joined projectile list are those of its parts |
| GameEngine.ShotsJoin | src/containers/GameEngineContainer.jsx:332 | new projectiles appended to the list keep it distinct |
| GameEngine.Game.Start | src/containers/GameEngineContainer.jsx:43-61 | a new game: 20 lives, the difficulty's starting money, wave 1 inactive, nothing selected, empty lists, tick 0 |
| GameEngine.Game.SelectTowerType | src/containers/GameEngineContainer.jsx:446 | the chosen shop type (or none) becomes the selection for the next click |
| GameEngine.Game.Click | src/containers/GameEngineContainer.jsx:72-140 | the corrected handler of Findings (c): a click within 20 pixels of a tower selects the first such tower and clears the type; otherwise, when a chosen, affordable type passes the check, a new tower of it is appended, its price is paid and one trap is used up; otherwise nothing changes |
| GameEngine.Game.Build | src/containers/GameEngineContainer.jsx:91-139 | the corrected placement of Findings (c), with the paths scaled to canvas pixels: a refused placement changes nothing; an accepted one places the tower |
| GameEngine.Game.PlaceTower | src/containers/GameEngineContainer.jsx:104-138 | the new tower is appended at level 1 with the type's stats, its price is paid, the money stays non-negative, the type selection is cleared and a trap's quantity drops by one |
| GameEngine.Game.WaveControl | src/containers/GameEngineContainer.jsx:142-150 | the wave flag flips; pausing keeps the queue; starting sets the queue to a permutation of the wave's composition |
| GameEngine.Game.StartWave | src/containers/GameEngineContainer.jsx:145-148 | the wave is active with its queue a permutation of the wave's composition |
| GameEngine.Game.Upgrade | src/containers/GameEngineContainer.jsx:152-160 | the corrected handler of Findings (a) and (b), using the factory's upgrade and keeping the selection: an affordable upgrade of a selected non-paragon raises its level by one, its damage × 1.4 and its range × 1.1, keeps its cooldown and trap state, and moves its cost from the purse into the tower's investment; money plus investment is conserved; otherwise nothing changes |
| GameEngine.Game.UpgradeAsWritten | src/containers/GameEngineContainer.jsx:152-160 | as written, for any valid selection, on the board or not: the inline upgrade raises the level by one, damage × 1.4 and range × 1.1, keeps cooldown and trap state, and adds the new level's cost to the investment; the selection becomes a fresh copy with the upgraded fields that is not on the board; upgrading a selection that is not on the board charges the player and leaves every board tower unchanged |
| GameEngine.Game.UpgradeTwiceAsWritten | src/containers/GameEngineContainer.jsx:152-160 | two upgrade clicks as written charge for two levels, but the board's tower rises by one; only the detached copy reaches the second level |
| GameEngine.Game.UpgradeTwice | src/containers/GameEngineContainer.jsx:152-160 | two upgrade clicks with the selection kept raise the board's tower by two levels, each charged at the level it was bought from |
| GameEngine.Game.Sell | src/containers/GameEngineContainer.jsx:162-168 | the selected tower leaves the board, one shorter iff it was on it; its sell value is paid; the selection is cleared |
| GameEngine.Game.UpgradeThenSellAsWritten | src/containers/GameEngineContainer.jsx:152-168 | upgrade then sell as written: the tower stays on the board, yet the player is charged the upgrade and paid its sell value |
| GameEngine.Game.UpgradeThenSell | src/containers/GameEngineContainer.jsx:152-168 | with the selection kept, upgrade then sell removes the tower and pays the sell value of the investment plus the upgrade |
| GameEngine.Game.SpawnedLikeFactory | src/containers/GameEngineContainer.jsx:205-232 | an enemy spawned by the container at a wave after 0 with non-zero base health has the health `createEnemy` would give it (growth 0.2, src/utils/entityFactories.js:50) iff the balance data's health multiplier is 0.2 |
| GameEngine.Game.SpawnPhase | src/containers/GameEngineContainer.jsx:196-235 | the spawner takes its `SpawnStep`; a released id the balance data knows becomes a new enemy appended to the list, as spawned; an unknown id is dropped |
| GameEngine.Game.EnemyPhase | src/containers/GameEngineContainer.jsx:239-297 | every enemy takes its frame; the list becomes the survivors, the leaks' lives are taken and the kills' bounties paid; lives never rise and no enemy is added |
| GameEngine.Game.Settle | src/containers/GameEngineContainer.jsx:239-297 | the survivors replace the list, the lives drop by `lost` and the money rises by `bounty` |
| GameEngine.Game.TowerPhase | src/containers/GameEngineContainer.jsx:300-338 | the money rises by the banks' income and the new projectiles, aimed at listed enemies, join the end of the list |
| GameEngine.Game.Collect | src/containers/GameEngineContainer.jsx:304-334 | the income is booked and the fired projectiles appended |
| GameEngine.Game.ProjectilePhase | src/containers/GameEngineContainer.jsx:341-371 | projectiles move or strike as `Flown` says, and the list becomes the projectiles still flying |
| GameEngine.Game.CompleteWave | src/containers/GameEngineContainer.jsx:395-399 | an active wave with an empty queue and no enemies ends: the next wave is due and 20 coins are paid; otherwise nothing changes |
| GameEngine.Game.Advance | src/containers/GameEngineContainer.jsx:196-297 | spawner then enemies: lives never rise, and every enemy is an old one or new |
| GameEngine.Game.Shoot | src/containers/GameEngineContainer.jsx:300-371 | towers then projectiles keep the game state valid |
| GameEngine.Game.CountFrame | src/containers/GameEngineContainer.jsx:401-422 | the tick advances by one and the loop stops once the lives are gone |
| GameEngine.Game.Tick | src/containers/GameEngineContainer.jsx:178-422 | a running frame advances the tick by one, never raises the lives, advances the wave by at most one and keeps running iff lives remain; a stopped game stays as it is |

## Left out

- **Rendering.** Drawing, the placement preview and the `mouseRef` tracking are not modelled. Everything under `src/views`, the render helpers and the decorations is also left out. None of it changes game state.
- **React scheduling.** `setLives`, `setMoney` and the other `useState` setters are modelled as immediate assignments. Stale closures are not modelled either: in the source a handler reads `money` as of its last render. The frame loop and the handlers are modelled as running one at a time, with no interleaving.
- **Canvas size.** The canvas is fixed at the 1000 × 700 pixels the container renders (src/containers/GameEngineContainer.jsx:427-428). The rules in `GameLogic` take the size as a parameter.
- **Randomness.** `Math.random()` becomes parameters: one draw per regular wave slot, and a sequence of choices for the shuffle. The comparator `sort(() => Math.random() - 0.5)` is modelled as a Fisher–Yates pass over those choices. Only the permutation is claimed, not its distribution.
- **Floating point.** Numbers are exact reals and integers. IEEE rounding of the 0.2, 0.75, 0.7, 1.4 and 1.1 multipliers is not modelled. `Math.floor` of a product is modelled exactly.
- **Movement.** The normalised move `x += dx / dist * speed` of enemies and projectiles is the function parameter `step`. The model does not fix where a step lands, only when one is taken.
- **Game over.** The `onGameOver` callback and `cancelAnimationFrame` are modelled as the `running` flag.
- **Soldiers and coins.** The barracks soldiers and the coin list of the container are never used by the frame loop, so only `createSoldier` is modelled.
- **Traps.** No code calls trap activation, and no code ever sets a trap's `used` flag. `checkTrapActivation` is modelled as a function only.
- **Paragons.** `createParagonTower` is modelled as `EntityFactories.Tower.Merge`. No intent in the container calls it, so no `Game` method merges towers.
- **Placement check arguments.** The container always passes `null` for the open quadrant and `0` existing heroes to the placement check. The model keeps both as parameters of `GameLogic.Placement`.
- **Wave size.** The model follows the code: wave n has `baseCount + floor(n * growthRate)` regular slots, and a draw that reaches every cumulative weight adds nothing to its slot. `GameLogic.RegularEntriesExact` states when every slot adds exactly one entry.
- **Corrected handlers.** The `Game` class places towers with the paths scaled to canvas pixels, and upgrades with the factory's `upgrade` while keeping the selected tower, as Findings (a) to (c) correct. The handlers as written are modelled beside them as `GameEngine.Game.UpgradeAsWritten`, `GameEngine.Game.UpgradeThenSellAsWritten`, `GameEngine.Game.UpgradeTwiceAsWritten` and `GameEngine.GardenTowerOnPathAccepted`.
- GameEngine.Game.TowerPhase: the per-tower cooldowns and the volley are stated on `Combat.TowerVolleys`, which the phase calls; the phase's own contract states only the money and the projectile list.
- GameEngine.Game.Shoot: states only that the state stays valid; the facts about each half are on `GameEngine.Game.TowerPhase` and `GameEngine.Game.ProjectilePhase`.
- GameEngine.Game.Tick: does not restate that the shop, the selection and the map are unchanged, or what each phase did; each phase's own contract states that.
- GameEngine.Game.Advance: states the lives and the enemy list only; the spawner's and the filter's results are on `GameEngine.Game.SpawnPhase` and `GameEngine.Game.EnemyPhase`.

## Findings

| source | as written | input that shows it | evidently intended | confidence | as-written member | corrected member |
|---|---|---|---|---|---|---|
| src/containers/GameEngineContainer.jsx:122-128 | the inline tower's `upgrade` raises the level first and then adds `getUpgradeCost()` at the new level to `totalInvestment` | a 100-coin tower upgraded twice: paid 100 + 75 + 150 = 325, records 475, and sells for 332 | add the cost at the old level, as `createTower` does (src/utils/entityFactories.js:35-42), so that the investment is what was paid | not executed | EntityFactories.InlineUpgradeSellsAtProfit | EntityFactories.Tower.Upgrade, GameEngine.Game.Upgrade |
| src/containers/GameEngineContainer.jsx:158 | after an upgrade the selection becomes a spread copy of the tower, so a later sell's identity filter removes nothing and still pays the sell value, and a later upgrade charges for the copy alone | select a tower, upgrade it, then sell it: the tower stays on the board and its sell value is paid; or upgrade it twice: both levels are charged but the board's tower rises by one | the selection stays the placed tower, so selling removes it and a second upgrade raises it again | not executed | GameEngine.Game.UpgradeThenSellAsWritten, GameEngine.Game.UpgradeTwiceAsWritten | GameEngine.Game.UpgradeThenSell, GameEngine.Game.UpgradeTwice, GameEngine.Game.Upgrade |
| src/containers/GameEngineContainer.jsx:92-102 | the click handler passes `mapData.paths`, which are in normalised units, to a check that compares them with canvas pixels | on the garden map, a plain tower clicked at (100, 175), on the first path segment, is accepted | scale the waypoints to the canvas before the path check | not executed | GameEngine.GardenTowerOnPathAccepted | GameEngine.GardenTowerOnPathRefused, GameEngine.Game.Click, GameEngine.Game.Build |
