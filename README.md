# ts-odyssey simulation core in Dafny

This project models the simulation engine of the ts-odyssey browser platformer and proves
properties about it. The model has four layers:

- **The overlap test.** This is the AABB test every other behaviour uses.
- **The per-entity behaviours.**
  - Player: keyboard input, gravity, platform snapping and the fall check.
  - Enemy: patrol with a ground probe, bounce at the world edges, and stomp versus hit.
  - Coins, the goal star and spikes.
- **The frame step and level loading.**
  - `updateState` runs the behaviours in a fixed order on a deep copy of the snapshot.
  - `createInitialState` builds a fresh snapshot.
  - `createEntitiesFromTileMap` scans a tile grid into platforms, enemies, coins and a star, with spawn overrides.
  - `convert1DTo2DTiles` reshapes a flat tile array into rows.
- **The host (`src/App.tsx`).**
  - The damage and respawn protocol, with its re-entrancy flag.
  - The frame gate and the camera clamp.
  - Starting a game.
  - The edge-triggered pause and return-to-title keys.

Coordinates are exact `real` numbers. The constants are those of `src/constants/constants.ts`.

The source's damage callback `onDamage(isFall)` becomes a returned sequence of `Damage(isFall)` events, one per call, in call order.

The player, enemy and coin behaviours each have two forms:
- A pure function on value records, which is the reference definition.
- An imperative method that updates a mutable `Types.Player` working copy in place, just as the source mutates its deep copy. Each method's postcondition ties the new state to the function.

The star and spike updates change nothing but their result, so each is only a function (`StarBehaviour.StarStep`, `SpikeBehaviour.SpikeStep`). The fall check is only a method (`PlayerBehaviour.CheckPlayerFall`), and its postcondition states the result and the damage call directly.

Other modelling choices:

- **Loops.** Loops in the source are loops in the model: the platform pass, the three `map` passes of the step, the reshaping loops, the spawn-map fill and the nested row/column scan of the loader. Their invariants compare the loop state against a fold of the reference function over the prefix already processed.
- **The host.** App.tsx is the class `App.Game`.
  - Its fields are the snapshot, the respawning flag, the held-key map and the two key handlers.
  - The pure `App.Host` transitions `OnDamage`, `OnTimer`, `OnFrame` and `OnStart` specify its methods.
  - The predicate `App.Inv` is preserved by every transition.
- **The respawn timer.** The 1200 ms timer becomes the explicit method `App.Game.ResolveRespawn`.
- **Loader input.** The loader takes a `TileMapDefinition` value rather than a map path.

Points where the code behaves in a way that is easy to misread:

- **Zero-size boxes.** src/engine/utils/collision.ts:10-13 uses four strict comparisons. A zero-size box that lies strictly inside another box therefore overlaps it, and `Collision.ZeroSizeBoxInsideOverlaps` proves this for every point strictly inside. Only two boxes that are both zero-width, or both zero-height, never overlap (`Collision.ZeroExtentNeverOverlaps`).
- **Spike hitbox.** src/engine/entities/spike.ts:18 tests the player against the spike's own full box.
- **Spikes in the state.** `GameState` (src/types/types.ts:27-39) has no `spikes` field, and `EntityType` (src/types/types.ts:2) has no spike member. The loader's declared and returned object has no `spikes` either (src/engine/tileMap/tileMapLoader.ts:70-76 and 180-186). Yet src/engine/engine.ts:17 and 34 destructure and store `spikes`, and src/engine/engine.ts:79 maps over it. The model's `GameState` carries a spike list, and `Engine.CreateInitialState` makes it empty. Under "## Left out", the entry for engine.ts:79 says what the source does instead.
- **Missing rows.** src/engine/tileMap/tileMapLoader.ts:109 reads `tiles[y][x]` without a bounds check.
  - A nested grid with fewer rows than `height` (and a positive width) makes JavaScript throw a TypeError. The model returns `Failure(MissingRow(y))` for the first missing row.
  - A read past the end of a row gives JavaScript's `undefined`. The model writes this as the `Undefined` slot, and such a slot produces no entity.
- **Tile code 5.** The switch at src/engine/tileMap/tileMapLoader.ts:113-168 has no case for code 5, so it produces no entity. The player spawn comes only from the `playerSpawn` metadata (src/engine/tileMap/tileMapLoader.ts:173-178).

## Model

| member | source | states |
|---|---|---|
| Types.Player.constructor | src/engine/engine.ts:47-48 | The working copy is a deep copy: its snapshot equals the record it was made from. |
| Collision.Overlaps | src/engine/utils/collision.ts:5-15 | `checkCollision`: the four strict comparisons hold iff, on each axis, the distance between the two centres is less than half the summed extents. |
| Collision.OverlapsSymmetric | src/engine/utils/collision.ts:9-14 | The overlap test gives the same answer with its arguments swapped. |
| Collision.TouchingEdgeDoesNotOverlap | src/engine/utils/collision.ts:10-11 | Boxes that only share a vertical edge do not overlap, in either order. |
| Collision.TouchingFloorDoesNotOverlap | src/engine/utils/collision.ts:12-13 | Boxes that only share a horizontal edge do not overlap, in either order. |
| Collision.OpenIntervalsMeetIff | src/engine/utils/collision.ts:10-13 | Two open intervals share a point iff each starts before the other ends and both are non-empty. |
| Collision.OverlapsIsIntervalIntersection | src/engine/utils/collision.ts:9-14 | For boxes of positive size, overlap holds iff the open x-intervals meet and the open y-intervals meet. |
| Collision.OverlapsTranslationInvariant | src/engine/utils/collision.ts:9-14 | Moving both boxes by the same vector does not change the result. |
| Collision.ZeroExtentNeverOverlaps | src/engine/utils/collision.ts:10-13 | Two boxes that are both zero-width, or both zero-height, never overlap. |
| Collision.ZeroSizeBoxInsideOverlaps | src/engine/utils/collision.ts:10-13 | A zero-size box at any point strictly inside another box overlaps it. |
| Collision.SelfOverlap | src/engine/utils/collision.ts:10-13 | A box overlaps itself iff both of its size components are positive. |
| PlayerBehaviour.Input | src/engine/entities/player.ts:17-25 | vel.x rules: left held gives -5 regardless of right; only right held gives +5; neither gives 0. vel.y: becomes -16 only when space is held and vel.y is 0, and is otherwise kept. Nothing but vel changes. |
| PlayerBehaviour.InputIdempotent | src/engine/entities/player.ts:17-25 | Applying the input twice with the same keys is applying it once. |
| PlayerBehaviour.HandlePlayerInput | src/engine/entities/player.ts:12-25 | The in-place update leaves the player equal to `Input` of the old player. |
| PlayerBehaviour.Physics | src/engine/entities/player.ts:33-35 | vel.y grows by exactly 0.8 and vel.x is kept. The position moves by the updated velocity. Nothing else changes. |
| PlayerBehaviour.GravityMonotone | src/engine/entities/player.ts:22-35 | Without a jump, input then physics strictly increases vel.y. |
| PlayerBehaviour.ApplyPlayerPhysics | src/engine/entities/player.ts:30-36 | The in-place update leaves the player equal to `Physics` of the old player. |
| PlayerBehaviour.ResolveOne | src/engine/entities/player.ts:46-56 | A platform the player does not overlap has no effect. Landing (falling, pre-move bottom at most 5 below the top) snaps the bottom to the platform top with vel.y 0. A head bump (rising, pre-move top at least the bottom minus 5) snaps the top to the platform bottom with vel.y 1. Any other overlap has no effect. Only pos.y and vel.y can change. |
| PlayerBehaviour.Resolve | src/engine/entities/player.ts:45-57 | The platforms in list order. A moving player that the pass leaves with vel.y 0 stands on the top of one of the given platforms; one that it leaves with a new vel.y of 1 is just under one of them. |
| PlayerBehaviour.ResolveAppend | src/engine/entities/player.ts:45-57 | The platform pass over `a + b` is the pass over `a` followed by the pass over `b`. |
| PlayerBehaviour.ResolveOnlyVertical | src/engine/entities/player.ts:45-57 | The whole pass changes only pos.y and vel.y. vel.y ends as it was, 0 or 1. |
| PlayerBehaviour.ResolveWithoutContact | src/engine/entities/player.ts:46 | If no platform is ever overlapped during the pass, the player is unchanged. |
| PlayerBehaviour.ResolveAtRest | src/engine/entities/player.ts:47-55 | A player with vel.y 0 is left unchanged by every platform. |
| PlayerBehaviour.FirstLandingSticks | src/engine/entities/player.ts:47-50 | If the player lands on some platform, it ends standing on that platform's top with vel.y 0, whatever platforms follow. |
| PlayerBehaviour.HandlePlayerPlatformCollisions | src/engine/entities/player.ts:41-58 | The forEach loop leaves the player equal to `Resolve` of the old player over all platforms. |
| PlayerBehaviour.CheckPlayerFall | src/engine/entities/player.ts:63-72 | Reports a fall iff pos.y > 600, with exactly one Damage(true) then and no event otherwise. |
| EnemyBehaviour.HasGroundBelow | src/engine/entities/enemy.ts:12-28 | Ground is found iff some platform overlaps the 5 px strip of the enemy's width directly under its footprint placed at (x, y). |
| EnemyBehaviour.GroundProbe | src/engine/entities/enemy.ts:18-25 | The probe is the box at (x, y + size.y) with the enemy's width and height 5. |
| EnemyBehaviour.AnyOverlaps | src/engine/entities/enemy.ts:27 | `platforms.some`: true iff some platform overlaps the box. |
| EnemyBehaviour.Patrol | src/engine/entities/enemy.ts:42-59 | Ground missing now or one step ahead: pos.x stays and vel.x flips. Otherwise pos.x advances by vel.x. Leaving [0, 5000] flips vel.x once more. Only pos.x and vel.x change. |
| EnemyBehaviour.EnemyStep | src/engine/entities/enemy.ts:33-74 | A dead enemy changes nothing. Without contact: the patrolled enemy, the same player, no events. A stomp kills the enemy, sets the player's vel.y to -16/1.5 and emits nothing. Any other contact emits one Damage(false) and leaves the enemy alive. pos.y, id and size are kept, and the magnitude of vel.x never changes. The player's vel.y is all that can change. |
| EnemyBehaviour.StompKills | src/engine/entities/enemy.ts:62-66 | A falling player overlapping a live enemy from above kills it, is bounced upward and is not hurt. |
| EnemyBehaviour.LedgeReversal | src/engine/entities/enemy.ts:42-50 | With no ground under the next step, an enemy inside the world turns round in place. |
| EnemyBehaviour.UpdateEnemy | src/engine/entities/enemy.ts:33-74 | The in-place update returns the enemy and events of `EnemyStep` and leaves the player as `EnemyStep` says. |
| CoinBehaviour.CoinStep | src/engine/entities/coin.ts:11-23 | A collected coin changes nothing. An uncollected overlapping coin becomes collected and adds exactly 100 to the score. Without overlap nothing changes. Only the coin's flag and the player's score can change. |
| CoinBehaviour.CoinIdempotent | src/engine/entities/coin.ts:15-19 | A second update with the updated player changes nothing, so one coin pays at most 100. |
| CoinBehaviour.UpdateCoin | src/engine/entities/coin.ts:11-23 | The in-place update returns the coin of `CoinStep` and leaves the player's score as `CoinStep` says. |
| StarBehaviour.StarStep | src/engine/entities/star.ts:12-23 | No star gives no status. The result is CLEAR iff the player overlaps the star, and nothing otherwise. |
| SpikeBehaviour.SpikeStep | src/engine/entities/spike.ts:12-24 | The spike is returned unchanged. Exactly one Damage(false) iff the player overlaps its full box, never a Damage(true). |
| TileMapConverter.FlattenReshape | src/engine/tileMap/tileMapConverter.ts:16-23 | With at least width×height tiles, concatenating the reshaped rows gives the first width×height tiles back. |
| TileMapConverter.Convert1DTo2DTiles | src/engine/tileMap/tileMapConverter.ts:10-24 | Exactly `height` rows of `width` slots, with `result[y][x]` the tile at `y*width + x` (undefined past the end). The round trip to the first width×height tiles holds when there are enough of them. |
| Format.NatToString | src/engine/tileMap/tileMapLoader.ts:116-142 | The decimal rendering of a counter or coordinate: non-empty, digits only, one digit exactly below 10. |
| Format.NatToStringInjective | src/engine/tileMap/tileMapLoader.ts:116-142 | Different numbers render differently. |
| Format.PlatformIdInjective | src/engine/tileMap/tileMapLoader.ts:116 | `p-x-y` determines x and y. |
| TileMapLoader.SpawnMap | src/engine/tileMap/tileMapLoader.ts:91-101 | Every spawn's tile coordinate is a key of the map, and every entry is stored under its own spawn's coordinate. |
| TileMapLoader.SpawnMapLastWins | src/engine/tileMap/tileMapLoader.ts:91-101 | A coordinate is in a spawn map iff some spawn has it, and it then holds the last such spawn. |
| TileMapLoader.BuildSpawnMap | src/engine/tileMap/tileMapLoader.ts:91-101 | The forEach fill builds exactly the spawn map of the list. |
| TileMapLoader.GridOf | src/engine/tileMap/tileMapLoader.ts:81-83 | Nested rows are lifted as given, row by row and code by code. A flat array, or an empty nested one, gives `height` rows of `width` slots. For a flat array, slot (x, y) is the entry at index y·width + x, or undefined past its end. |
| TileMapLoader.RowCellsShape | src/engine/tileMap/tileMapLoader.ts:108-109 | A row's first n cells are the coordinates 0..n-1 with the slot read there. |
| TileMapLoader.GridCellsRowMajor | src/engine/tileMap/tileMapLoader.ts:107-109 | The scan visits w×h cells, each read at its own in-grid coordinate, in strict row-major order, covering every coordinate. |
| TileMapLoader.Visit | src/engine/tileMap/tileMapLoader.ts:113-168 | One cell: the lists only grow, and by exactly one entity for codes 1, 2 and 3 and none otherwise. A star once found is kept. Each id counter stays or advances by one. |
| TileMapLoader.ScanCells | src/engine/tileMap/tileMapLoader.ts:107-170 | The scan in cell order yields at most one entity per cell, and each id counter never exceeds the number of entities of its kind. |
| TileMapLoader.OtherCodesProduceNothing | src/engine/tileMap/tileMapLoader.ts:113-168 | A cell that is not code 1, 2, 3 or 4 (including 0, 5 and undefined) leaves the scan state unchanged. |
| TileMapLoader.ScanPlatforms | src/engine/tileMap/tileMapLoader.ts:114-122 | One platform per code-1 cell in scan order, at (x·ts, y·ts), size ts×ts, id `p-x-y`. |
| TileMapLoader.ScanEnemies | src/engine/tileMap/tileMapLoader.ts:123-136 | One enemy per code-2 cell in scan order, size 40×40, alive, vel from the override or (-2, 0). The id is the override's non-empty id or `e-k`, where k counts the earlier code-2 cells without one. |
| TileMapLoader.ScanCoins | src/engine/tileMap/tileMapLoader.ts:137-150 | One coin per code-3 cell in scan order, size 25×25, uncollected, vel 0. The id is the override's non-empty id or `c-k`, where k counts the earlier cells without one. |
| TileMapLoader.ScanStar | src/engine/tileMap/tileMapLoader.ts:151-167 | A star exists iff some cell is code 4. It is the first such cell, size 50×50, with id `starSpawn.id` when the coordinates match and that id is non-empty, and `star-goal` otherwise. |
| TileMapLoader.SelectOrdered | src/engine/tileMap/tileMapLoader.ts:107-113 | The cells of one code come from the scan and keep row-major order. |
| TileMapLoader.SpawnPosition | src/engine/tileMap/tileMapLoader.ts:173-178 | The player spawn is (tileX·ts, tileY·ts) when given and (100, 460) otherwise. |
| TileMapLoader.LoadEntities | src/engine/tileMap/tileMapLoader.ts:70-187 | The loader succeeds iff every row it reads exists. |
| TileMapLoader.FlatAlwaysLoads | src/engine/tileMap/tileMapLoader.ts:81-83 | A flat tile array always loads, as the converter supplies every row. |
| TileMapLoader.PlatformIdsUnique | src/engine/tileMap/tileMapLoader.ts:114-121 | The platforms of a loaded level have pairwise different ids. |
| TileMapLoader.ScanCell | src/engine/tileMap/tileMapLoader.ts:109-168 | The switch on one tile does what `Visit` specifies for that cell. |
| TileMapLoader.TilesOf | src/engine/tileMap/tileMapLoader.ts:81-83 | Nested rows as given; a flat (or empty nested) array through the converter. |
| TileMapLoader.ScanRow | src/engine/tileMap/tileMapLoader.ts:108-169 | The inner loop extends the scan by the cells of one row. |
| TileMapLoader.ScanGrid | src/engine/tileMap/tileMapLoader.ts:107-170 | The nested loops give the scan of all cells, or fail at the first missing row. |
| TileMapLoader.CreateEntitiesFromTileMap | src/engine/tileMap/tileMapLoader.ts:70-187 | The imperative loader returns exactly `LoadEntities` of the definition. |
| Engine.Enemies | src/engine/engine.ts:65-67 | The enemy map keeps length, order, ids, pos.y and sizes, and never revives a dead enemy. Only the player's vel.y changes. At most as many events as enemies, all Damage(false). |
| Engine.Coins | src/engine/engine.ts:70 | The coin map keeps length, order and every field but the collected flag, and never un-collects. Only the score changes, by exactly 100 per newly collected coin. |
| Engine.Spikes | src/engine/engine.ts:79-81 | The spike map returns the list unchanged, with one Damage(false) per spike touched. |
| Engine.Moved | src/engine/engine.ts:51-57 | Input, physics and platforms change only the player's pos and vel. |
| Engine.Step | src/engine/engine.ts:40-84 | Not PLAYING: the snapshot and no events. A fall: exactly the previous snapshot and one Damage(true). Status stays or becomes CLEAR. Platforms, spikes, star and viewportX are kept. Enemy and coin lists keep lengths and ids, never revive or un-collect. Life and isHurt are kept. |
| Engine.StepScore | src/engine/engine.ts:70 | The score rises by 100 times the number of coins newly collected in the frame. |
| Engine.StepScoreInvariant | src/engine/engine.ts:70 | A non-negative multiple of 100 stays a non-negative multiple of 100 and never decreases. |
| Engine.StepClearsOnStar | src/engine/engine.ts:73-76 | Without a fall, the frame sets CLEAR iff the moved player overlaps the star, and otherwise stays PLAYING. |
| Engine.UpdateEnemies | src/engine/engine.ts:65-67 | The loop gives exactly the `Enemies` fold, updating the working player in place. |
| Engine.UpdateCoins | src/engine/engine.ts:70 | The loop gives exactly the `Coins` fold, updating the working player in place. |
| Engine.UpdateSpikes | src/engine/engine.ts:79-81 | The loop gives exactly the `Spikes` fold. |
| Engine.UpdateState | src/engine/engine.ts:40-84 | The imperative step returns exactly `Step`'s snapshot and events. |
| Engine.CreateInitialState | src/engine/engine.ts:16-38 | Life 3, score 0, size 32×48, vel 0, not hurt, at the spawn position; viewportX 0, status START, no spikes. The loaded platforms, enemies, coins and star. |
| Pause.PauseToggle | src/input/pause.ts:22-26 | PLAYING and PAUSED swap; every other status stays. |
| Pause.PauseToggleInvolution | src/input/pause.ts:22-26 | Toggling twice gives the status back. |
| Pause.KeyDown | src/input/pause.ts:18-34 | Other keys change nothing. A P press sets the flag and toggles only when the flag was clear. |
| Pause.KeyUp | src/input/pause.ts:41-43 | Releasing P clears the flag and nothing else; other keys change nothing. |
| Pause.HoldingDoesNotRepeat | src/input/pause.ts:20-33 | Any run of P presses toggles at most once, on the first. |
| Pause.PressReleasePress | src/input/pause.ts:18-43 | Press, release, press returns to the starting status. |
| Pause.PauseHandler.constructor | src/input/pause.ts:12 | A new handler starts with the P flag clear. |
| Pause.PauseHandler.HandleKeyDown | src/input/pause.ts:14-35 | Marks the key held, updates flag and status as `KeyDown`, and changes only the status. |
| Pause.PauseHandler.HandleKeyUp | src/input/pause.ts:37-44 | Marks the key released; a P release clears the flag. |
| Title.ToTitle | src/input/title.ts:23-29 | PLAYING or PAUSED becomes START; any other status stays. |
| Title.ToTitleIdempotent | src/input/title.ts:23-29 | Returning twice is returning once. |
| Title.KeyDown | src/input/title.ts:18-33 | Other keys change nothing. A T press sets the flag and acts only when the flag was clear. |
| Title.KeyUp | src/input/title.ts:40-42 | Releasing T clears the flag and nothing else. |
| Title.HoldingDoesNotRepeat | src/input/title.ts:20-32 | Any run of T presses acts at most once, on the first. |
| Title.TitleHandler.constructor | src/input/title.ts:12 | A new handler starts with the T flag clear. |
| Title.TitleHandler.HandleKeyDown | src/input/title.ts:14-34 | Marks the key held, updates flag and status as `KeyDown`, and changes only the status. |
| Title.TitleHandler.HandleKeyUp | src/input/title.ts:36-43 | Marks the key released; a T release clears the flag. |
| App.OnDamage | src/App.tsx:36-47 | Ignored while respawning. Otherwise: respawn pending, life minus 1, hurt, vel 0, remembering whether it was a fall. |
| App.RespawnPosition | src/App.tsx:55-58 | x is max(100, x-200). y is 100 after a fall and y-100 otherwise. |
| App.OnTimer | src/App.tsx:49-66 | No lives left: GAMEOVER. Otherwise the player is put back at the respawn position, stopped and not hurt. The flag is cleared either way. |
| App.DoubleHitCostsOneLife | src/App.tsx:37 | A second hit while a respawn is pending changes nothing, so only one life is lost. |
| App.HitThenTimer | src/App.tsx:36-67 | Hit then timer: idle again, one life down, GAMEOVER iff that was the last life, else stopped and not hurt. |
| App.ApplyDamage | src/App.tsx:36-47 | A run of damage calls leaves a respawn pending iff one was pending or some call was made. A run that starts while a respawn is pending changes nothing. |
| App.OnlyFirstDamageCounts | src/App.tsx:37-39 | Of a frame's damage calls only the first takes effect. |
| App.ClampViewport | src/App.tsx:87-88 | The camera x is player.x - 400 clamped to [0, 4200]. |
| App.Stepped | src/App.tsx:83-94 | The updater without its damage calls: no respawn pending, the snapshot of the step with only the camera changed, and the camera set to the clamp of the stepped snapshot's player x (the previous player in the fall and frozen cases), inside [0, 4200]. |
| App.OnFrame | src/App.tsx:69-97 | Frozen while respawning or paused. Otherwise: the step, the camera clamp, then the frame's damage calls. |
| App.FrameDamage | src/App.tsx:69-97 | From idle: respawn pending iff the step made a damage call. Exactly one life lost then, none otherwise. The camera ends at the clamp of the stepped player's x, inside [0, 4200]. |
| App.OnStart | src/App.tsx:142-147 | Flag cleared; a fresh initial state of the level with status PLAYING, 3 lives, score 0. |
| App.Inv | src/App.tsx:36-97 | The host invariant (below). A camera that satisfies it is a fixed point of the clamp, so it is one the frame could have set. |
| App.OnDamagePreservesInv | src/App.tsx:36-47 | A damage call keeps the host invariant. |
| App.OnTimerPreservesInv | src/App.tsx:49-66 | The respawn timer keeps the host invariant. |
| App.ApplyDamagePreservesInv | src/App.tsx:36-47 | Any run of damage calls keeps the host invariant. |
| App.SteppedPreservesInv | src/App.tsx:83-94 | The step and camera clamp keep the host invariant. |
| App.OnFramePreservesInv | src/App.tsx:69-97 | A frame keeps the host invariant. |
| App.OnStartPreservesInv | src/App.tsx:142-147 | Starting a game establishes the host invariant. |
| App.StatusChangePreservesInv | src/input/pause.ts:22-27 | A pause toggle or return to title keeps the host invariant. |
| App.Game.constructor | src/App.tsx:25-29 | The initial host: the selected level's initial state, idle, no keys held, both key handlers with their flags clear (src/input/pause.ts:12, src/input/title.ts:12), invariant established. |
| App.Game.HandleDamage | src/App.tsx:36-67 | The in-place update is `OnDamage`, and the invariant is kept. |
| App.Game.ResolveRespawn | src/App.tsx:49-66 | The in-place update is `OnTimer`, and the invariant is kept. |
| App.Game.Update | src/App.tsx:69-97 | The in-place update is `OnFrame` for the held keys, and the invariant is kept. |
| App.Game.StartGame | src/App.tsx:142-147 | The in-place update is `OnStart` for the level, and the invariant is kept. |
| App.Game.SetStatus | src/App.tsx:111-115 | A key handler's new status, which is the old status, its pause toggle or its return to the title. Only the status changes, and the invariant is kept. |
| App.Game.HandleKeyDown | src/App.tsx:111-115 | The key is held. Status and flags follow the pause handler, then the title handler. Nothing else changes and the invariant is kept. |
| App.Game.HandleKeyUp | src/App.tsx:117-121 | The key is released. Each handler's flag is cleared by its own key, and the state is unchanged. |

The host invariant `App.Inv` says five things:
- The camera is in [0, 4200].
- The score is a non-negative multiple of 100.
- The player is hurt while a respawn is pending.
- Life is at most 3.
- Life is positive whenever a game is running or paused without a pending respawn.

## Left out

- `loadTileMap` and `getAvailableMaps` (src/engine/tileMap/tileMapLoader.ts:11-64) are left out. They rely on bundler `import.meta.glob` and JSON module loading. The loader and `createInitialState` take the `TileMapDefinition` value instead of a map path.
- The JSX rendering of src/App.tsx, the components, the map editor, the legacy `mapData` layout and the duplicate root App.tsx are left out. They are presentation or unused code.
- `requestAnimationFrame`, `setTimeout(…, 1200)`, React state batching and the `gameStateRef` mirror are left out. They are host timing. Each becomes an explicit method call: `App.Game.Update`, `App.Game.ResolveRespawn` and `App.Game.HandleDamage`. The frame's damage calls are applied after the step, as React's queued updaters are.
- The aliasing of the shallow `{...prev}` copies in App.tsx is left out. In the source, `next.player.life -= 1` also mutates the previous snapshot's player. The model treats every snapshot as a value.
- The pending timer is not cancelled by `startGame` or by returning to the title. The model has at most one pending respawn, and `App.Game.ResolveRespawn` requires one to be pending. A timer that fires after a restart is not modelled.
- IEEE-754 rounding (0.8, -16/1.5) is not modelled. The model computes with exact reals.
- Enemy and coin records are computed as values rather than mutated in place. The deep copy in `updateState` makes them unaliased, so nothing observable is lost. Only the player is a mutable object.
- Keyboard event plumbing beyond the boolean key map is left out. The key map is a map from key names to booleans, and a missing key reads as not held.
- App.Game.constructor: requires `TileMapLoader.Loads(level)`. For a nested map with fewer rows than `height`, the source's `useState(createInitialState(...))` (src/App.tsx:25) throws a TypeError and the app crashes at mount. The model has no host for a level that does not load and excludes that case through the precondition; the loader itself models the failure as `Failure(MissingRow(y))`.
- App.OnStart: requires `TileMapLoader.Loads(level)` for the same reason. For such a level the `startGame` updater (src/App.tsx:142-147) throws a TypeError, so starting a game crashes the app. The model excludes that case instead of modelling the crash.
- Engine.Step: deliberately departs from the source on every PLAYING frame without a fall. The loader returns no `spikes` (src/engine/tileMap/tileMapLoader.ts:180-186), so `createInitialState` stores `undefined` (src/engine/engine.ts:17 and 34). The deep copy at src/engine/engine.ts:47 drops that key, and `newState.spikes.map` at src/engine/engine.ts:79 throws a TypeError, after the enemy updates of that frame have already made their damage calls. The model reads the missing list as empty, so such a frame completes with its enemy, coin and star updates. `Engine.UpdateState`, `App.OnFrame` and `App.Game.Update` inherit this departure.
- Spawn and tile coordinates: `tileX`/`tileY` are integers, and `width`/`height` are natural numbers. Fractional or negative JSON numbers there are not modelled. The string key `${tileX},${tileY}` is modelled as the integer pair, which it determines.
- `Types.Player.constructor` copies the player record only. The entity lists of the deep copy are values and need no copy.
