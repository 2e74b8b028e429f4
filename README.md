# shinobiOffline combat rules in Dafny

This project models the rules at the heart of the pygame action game
*shinobiOffline*:

- the level's map grid and collision resolver;
- the enemy and ally combatants;
- the player;
- projectiles and fireball explosions;
- effect lifecycles;
- the static data tables;
- the small helpers for tiles, the camera, item drops and key events.

There is one Dafny module per source file, plus `Wrappers` (Option and Result) and `Geometry` (integer rects, truncation, facing, and the nearest-target scan they all share).

Objects that the game updates in place are classes whose methods are proved against specification functions. Examples: `Levels.MapController`, `Characters.Character`, `Allies.Ally`, `Players.Player`, `Projectiles.Projectile`, the effects, `Tiles.Tile`, `CameraView.Camera`, `ItemDrops.ItemDrop` and `KeyNotifier.KeyPressedNotifier`. Tables and decision rules are functions, with lemmas about them.

The model makes these substitutions:

- **Clock and randomness.** `pygame.time.get_ticks()` becomes a `now` parameter. Every `random.random()` or `random.choice` becomes a draw passed in.
- **Collisions.** Mask collisions are inputs: the list of what each sprite touches.
- **Distances.** Euclidean distances are compared as squared integer distances.
- **Rect coordinates.** pygame rect coordinates are integers, and each float written to one is truncated toward zero (`Geometry.Trunc`).

## Model

| member | source | states |
|---|---|---|
| Geometry.Trunc | characters.py:178-179 | The integer a rect coordinate keeps: within one below a non-negative value, within one above a negative one (rounding toward zero) |
| Geometry.Recentre | characters.py:191-195 | Setting `rect.center` keeps the size and the centre read back is the truncated new centre |
| Geometry.Nudge | characters.py:178-180 | `rect.x += vx; rect.y += vy` keeps the size and moves each corner coordinate in the sign of its component |
| Geometry.FacingScaleInvariant | player.py:592-602 | Normalising a vector before taking its facing changes nothing: any positive scaling keeps the facing |
| Geometry.FacingMeaning | player.py:592-602 | Facing is Right/Left exactly when the x component dominates (by its sign), Down/Up otherwise, ties going vertical and a zero y facing up |
| Geometry.ClosestIndex | characters.py:216-249 | The nearest-target scan: None iff no candidate is in reach; otherwise an in-reach candidate no farther than any other in-reach one and strictly nearer than every earlier one (first wins ties) |
| Geometry.ClosestIsUnique | characters.py:216-249 | At most one candidate is the nearest first-wins pick, so "the closest enemy" names one index |
| Settings.LevelKeys | settings.py:6-37 | `level_data` has exactly the keys 1..30, each with at least one enemy and a positive size |
| Settings.NumEnemiesMonotone | settings.py:6-37 | The enemy count never decreases from one level to a later one |
| Settings.WeaponNameRoundTrip | settings.py:52-61 | Weapon names and the weapon lookup agree in both directions |
| Settings.IndestructibleWeapons | settings.py:55-59 | Exactly fuuma and fireball are indestructible |
| Settings.FireballIsUntyped | settings.py:53-59 | The fireball is the only weapon without a cooldown and the only one without a type |
| Settings.ThrowableWeapons | settings.py:53-59 | A weapon has a throwing speed exactly when it is not a melee weapon |
| Settings.BehaviorsKnown | settings.py:64-73 | Every monster and ally behaviour is aggressive or defensive; the ally table has exactly the three ally names |
| Settings.DropsAreTypedWeapons | settings.py:74-80 | Every droppable item is a weapon with a melee or ranged type |
| Settings.MissionsPartitionLevels | settings.py:100-117 | Two different missions share no level, and every mission level exists in `level_data` |
| Settings.JutsuPoolShape | settings.py:119-150 | Every element has exactly four jutsu with distinct names |
| Settings.EarthWallIsDefensive | settings.py:119-150 | A jutsu does no damage exactly when it is Earth Wall, which belongs to Earth and defends 60 |
| Tiles.RemoveFirstAt | tile.py:23-26 | Removing an effect whose first occurrence is at i drops exactly position i |
| Tiles.RemoveAbsent | tile.py:23-26 | Removing an absent effect leaves the list as it was |
| Tiles.RemoveFirstCount | tile.py:23-26 | Removing a present effect takes exactly one copy of it out of the multiset; an absent one changes nothing |
| Tiles.RemoveUndoesAdd | tile.py:19-26 | Removing an effect just added (and not there before) restores the list |
| Tiles.TriggerSplits | tile.py:28-31 | Triggering a concatenated list slows as the two parts do one after the other |
| Tiles.Applied | tile.py:28-31 | The effects a trigger runs in full: the prefix before the first damage effect, the whole list when there is none |
| Tiles.Apply | tile.py:43-63 | One effect's `apply`: a slow lowers the entity's speed by its amount, the base effect changes nothing, and a damage effect raises TypeError (its `take_damage` call has too few arguments for every class that defines it) and changes nothing |
| Tiles.Tile.constructor | tile.py:5-14 | A tile starts with the given effects or a fresh empty list, its flags, and its rect anchored at the bottom-right position |
| Tiles.Tile.AddEffect | tile.py:19-21 | Appends the effect at the end and changes nothing else |
| Tiles.Tile.RemoveEffect | tile.py:23-26 | Removes the first occurrence if present (length drops by one), otherwise no change |
| Tiles.Tile.TriggerEffects | tile.py:28-31 | Applies the effects in list order and stops at the first damage effect: a TypeError iff the list holds a damage effect, and the entity is slowed by exactly the effects before it |
| CameraView.TranslateMoves | camera.py:11-14 | Applying the camera keeps the size and shifts the corner by the camera's corner |
| CameraView.FollowedTargetIsCentred | camera.py:16-24 | After following a target, that target is drawn with its corner at the screen centre |
| CameraView.VisibleRectIsScreen | camera.py:26-31 | The visible rect, translated by the camera, is the screen rect at the origin |
| CameraView.Camera.constructor | camera.py:4-9 | The camera starts at the origin with the screen's size and no target |
| CameraView.Camera.Apply | camera.py:11-14 | `apply`/`apply_rect` keep the size and add the camera's corner |
| CameraView.Camera.GetVisibleRect | camera.py:29-31 | The visible rect maps back onto the whole screen |
| CameraView.Camera.Update | camera.py:16-24 | No target leaves the camera; a target puts the camera at minus its corner plus half the screen, keeping the camera's size, so the target is drawn at the screen centre |
| ItemDrops.BounceStep | ItemDrop.py:17-24 | The offset stays in [0, 20]; the direction flips only at a clamp; overshooting the top gives (20, -1), undershooting the ground gives (0, +1), and an unclamped step moves by direction × speed × dt |
| ItemDrops.ItemDrop.constructor | ItemDrop.py:6-15 | The item is one of the droppable items, the offset starts at 0 and the direction at +1, and the rect is centred on the drop position |
| ItemDrops.ItemDrop.Update | ItemDrop.py:17-25 | The bounce takes one step, its offset stays in [0, 20], and the rect's top becomes the start height minus the offset |
| KeyNotifier.DeliveredIsPrefix | key_pressed_notifier.py:12-18 | Delivery reaches a prefix of the handlers: no raiser before its last element, it stops early only at a raiser, and it reaches all handlers when none raises |
| KeyNotifier.KeyPressedNotifier.constructor | key_pressed_notifier.py:1-2 | The handler list starts empty |
| KeyNotifier.KeyPressedNotifier.Subscribe | key_pressed_notifier.py:4-9 | Appends the handler, keeping duplicates |
| KeyNotifier.KeyPressedNotifier.Notify | key_pressed_notifier.py:12-18 | Calls the handlers in subscription order up to and including the first that raises; nothing with no subscribers |
| Projectiles.StatsFor | projectile.py:6-28 | Melee weapons have no projectile stats (KeyError); otherwise speed is the table speed times the throw speed, and damage, indestructibility and rotation come from the table |
| Projectiles.OutOfBoundsMeansOutside | projectile.py:35-38 | `check_bounds` kills exactly the projectiles that do not touch the map expanded by 160 px on every side |
| Projectiles.EnemiesInBlastBounded | projectile.py:119-137 | The enemies an explosion reaches are valid indices |
| Projectiles.EnemiesInBlastExact | projectile.py:119-137 | An enemy is reached exactly when it lies within the explosion radius |
| Projectiles.EnemiesInBlastOrdered | projectile.py:119-137 | Reached enemies are listed once each, in group order |
| Projectiles.HitsFor | level.py:563-569 | One hit event per victim, in order, each with the given amount |
| Projectiles.HitsAreNotExplosions | projectile.py:107-115 | Damage events never count as explosions |
| Projectiles.BlastExplodesOnce | projectile.py:119-137 | A blast starts with its one explosion at the fireball's centre |
| Projectiles.FireballExplodesAtMostOnce | projectile.py:65-115 | The first-match fireball check explodes at most once per update, and an explosion always kills the fireball |
| Projectiles.TrunkComesFirst | projectile.py:66-71 | A trunk hit explodes and kills before anything else is checked, as written and as intended alike |
| Projectiles.SidesRespected | projectile.py:85-115 | A player-side fireball meeting the ally does nothing; an enemy-side fireball never hits enemies directly |
| Projectiles.DoubleExplosionAsWritten | projectile.py:73-93 | As written, an enemy fireball that hits the player and the ally in one frame explodes twice; the intended rule explodes once |
| Projectiles.Projectile.constructor | projectile.py:6-28 | Speed, damage, indestructibility and rotation from the weapon table; centred on the launch point; explosion damage 35 and radius 100; angle 0 |
| Projectiles.Projectile.CreateExplosion | projectile.py:119-137 | The blast's events: every enemy within the radius for a player-side fireball, only the player within it for an enemy-side one |
| Projectiles.Projectile.Update | projectile.py:40-115 | Moves by direction × speed × dt (each coordinate within 1 of the exact move), rotates by 14 if rotating, and resolves a fireball's collisions with the program's fall-through rule, so an enemy fireball can explode on the player and again on the ally; it dies when killed or out of bounds |
| Effects.FistCell | effects.py:73-76 | Fist frame i is cell (i // 8, i % 8) of the 4 × 8 sheet |
| Effects.FistCellsDistinct | effects.py:73-76 | Different fist frames show different cells |
| Effects.MeleeEffect.constructor | effects.py:38-64 | Only fist and sword effects exist: 32 or 5 frames, 0.05 s each, starting at frame 0 |
| Effects.MeleeEffect.Cell | effects.py:73-76 | The fist sheet cell shown is the current frame's |
| Effects.MeleeEffect.Update | effects.py:65-85 | Once the accumulated time reaches the frame time, the frame advances and the timer resets, and the effect dies when the frame reaches the total; otherwise time only accumulates |
| Effects.AdvanceCountsFrames | effects.py:219-226 | k frame advances from 0 on an n-frame sheet show frame k |
| Effects.SheetAnimation.constructor | effects.py:206-280 | Spark, Puff, Explosion and Kawarimi start alive at frame 0 with no remains |
| Effects.SheetAnimation.Update | effects.py:206-280 | The frame goes to (i + 1) mod n once the time reaches the frame time, and the sprite dies when it becomes n - 1; Kawarimi then leaves remains at its position + (32, 32). Explosion (effects.py:402-421) follows the same rule |
| Effects.BloodParticle.constructor | effects.py:86-103 | A particle starts moving with radius 3, alpha 255 and no time alive |
| Effects.BloodParticle.Update | effects.py:104-125 | Before its stop time the velocity gains 0.5 × dt per axis and the position moves by the new velocity × dt; after it, the velocity is kept, the radius grows by the growth rate up to the maximum, and once at the maximum the alpha drops by exactly the fade speed; it dies at alpha ≤ 0 |
| Effects.InsectSwarm.constructor | effects.py:826-849 | A swarm starts moving to its target, alive, with lifespan 6000 ms and speed 200 |
| Effects.InsectSwarm.Update | effects.py:850-908 | At most one mode at a time, advancing only from moving to circling to returning. Within the lifespan: a moving swarm starts circling exactly when it reaches or touches its target, restarting the clock; a circling one starts returning exactly after 3000 ms; a returning one dies on reaching or touching its user. Past the lifespan it dies unchanged, and it dies at no other time |
| Effects.BezierEndpoints | effects.py:998-1000 | The quadratic Bézier starts at the first control point and ends at the last |
| Effects.NinjutsuEffect.constructor | effects.py:911-1016 | The effect's duration comes from its kind; only Earth Wall owns a wall tile; the Water Dragon's middle control point is the midpoint plus the jitter |
| Effects.NinjutsuEffect.Update | effects.py:911-1016 | The effect (and an Earth Wall's tile) dies once its duration has passed; a Water Dragon's t is non-decreasing and clamped at 1, with the centre on the Bézier curve |
| Characters.Multiplier | characters.py:39-50 | Rank multipliers lie in [1, 3.5] and are 1.0 exactly for D and an unknown rank |
| Characters.MultipliersIncrease | characters.py:39-41 | D < C < B < A < S |
| Characters.AssignElement | characters.py:97-100 | An element exactly for ranks C to S, the drawn one |
| Characters.AssignNinjutsu | characters.py:102-111 | No element gives no jutsu; otherwise the names are the pool's, in the drawn order, never more than the pool |
| Characters.RankJutsu | characters.py:97-111 | D gets nothing; C, B, A and S get exactly 1, 2, 3 and 4 distinct jutsu of their element |
| Characters.ThrowPool | characters.py:341-344 | The fuuma is in the pool exactly for S, A and B, and every pool weapon can be thrown |
| Characters.DecideAttack | characters.py:265-289 | A draw below 0.2 picks a special attack; ninjutsu is cast exactly when the second draw passes 0.4 × multiplier for ranks S to C and a jutsu is known; otherwise a normal throw from the pool |
| Characters.NinjutsuOdds | characters.py:265-289 | An S rank knowing a jutsu always casts when no special attack is drawn; D never casts |
| Characters.CastableJutsu | characters.py:321-339 | Only the first jutsu of each element, and the second of fire and water, has an effect |
| Characters.PyRange | characters.py:375-379 | Python's `range` with a positive step: exactly the values start + i × step below stop |
| Characters.AreaStep | characters.py:375-379 | The area-attack angle step `int(90 // multiplier)` is at least 25 |
| Characters.AreaVolleySizes | characters.py:375-379 | An area attack throws 4, 5, 6, 8 or 15 fuuma for D, C, B, A and S, all at angles in [0, 360) |
| Characters.ChainRule | characters.py:370-373 | A draw in [0, 1) re-chains the teleport exactly for A above 0.75 and S above 3/7, never for D, C or B |
| Characters.CardinalFacing | characters.py:144-180 | Each cardinal wander step's action names its own facing |
| Characters.Reroll | characters.py:144-180 | Below 0.5 a cardinal step walked in its facing; otherwise idle in the last direction |
| Characters.MoveBand | characters.py:182-214 | Nothing within 40; aggressive always advances; defensive retreats below 150, advances above 250 and wanders in between |
| Characters.UnitFacing | characters.py:182-214 | Facing the normalised difference is facing the raw difference |
| Characters.Volley | characters.py:375-379 | One fuuma per angle, on the thrower's side |
| Characters.AttackShots | characters.py:265-289 | Every projectile an attack branch creates is on the attacker's side |
| Characters.Character.constructor | characters.py:43-86 | The rank's throw speed 0.8 × multiplier, the drawn element and its jutsu, zeroed stats, idle facing down, the teleport at rest |
| Characters.Character.FindClosestEnemy | characters.py:216-249 | Scans the opposing side and then the player: the nearest candidate strictly inside the vision radius, first wins ties |
| Characters.Character.RandomMove | characters.py:144-180 | After the wander's duration a new one is rolled (800 to 1200 ms); the rect takes the wander step and the action becomes the wander action |
| Characters.Character.Move | characters.py:182-214 | Within 40 px or without a target nothing changes; otherwise the band moves the character and it faces the target. Advancing and retreating keep the wander state; the wandering band re-rolls it exactly as `random_move` does |
| Characters.Character.Travel | characters.py:182-214 | Advancing recentres by the unit step and retreating by its opposite, both keeping the wander state; any other band wanders, re-rolling step, timer and duration once the current wander has lasted its duration |
| Characters.Character.Blink | characters.py:347-356 | Stage 0 jumps 96 px in the drawn cardinal direction and starts stage 1's timer |
| Characters.Character.Attack | characters.py:265-289 | Nothing within 3.5 s of the last attack; otherwise the clock resets and the decision tree's branch runs, a teleport starting its machine at once |
| Characters.Character.TakeDamage | characters.py:297-308 | hp falls by the amount, the vision radius grows by exactly 300, knockback starts at 200 × the direction, blood of `max(1, int(amount))` (1 below an amount of 1); at hp ≤ 0 dying with an empty rect |
| Characters.Character.SpecialTeleportAttack | characters.py:346-373 | Stage 0 jumps to 1; stage 1 goes to 2 after 200 ms; stage 2 with a target fires, rests at 0 and re-chains only when the chain rule passes; a target on the character's own centre is a ValueError with nothing changed |
| Allies.ScaleBounds | ally.py:54-65 | Scaling a non-negative base by a multiplier of at least 1 never lowers it, stays within one of the product, and is monotone in the multiplier |
| Allies.AllyProfile | ally.py:44-65 | An unknown ally name raises ValueError; otherwise the stats come from the table |
| Allies.ProfileIsScaled | ally.py:54-65 | Each of hp, speed, vision radius and the two skills is `int(base × multiplier)`, and max hp equals hp |
| Allies.ProfileMonotone | ally.py:54-65 | A better rank never gives a weaker ally |
| Allies.WrapAxis | ally.py:417-426 | Past the far edge the near edge goes to 0; before the near edge the far edge goes to the limit; otherwise no move |
| Allies.WrapKeepsInside | ally.py:417-426 | A sprite that fits in the map lies wholly inside it after wrapping |
| Allies.Ally.constructor | ally.py:44-121 | Scaled stats, a halved rect keeping its corner, a first target that is the nearest enemy strictly within 5000 px (first wins ties) or none when no enemy is that close, the drawn element and jutsu, the teleport at rest |
| Allies.Ally.FindClosestEnemy | ally.py:194-202 | Only enemies are scanned: the nearest strictly inside the radius, first wins ties |
| Allies.Ally.CanSeeTarget | ally.py:349-353 | False without a target, else the target within the vision radius, the circle included |
| Allies.Ally.Retarget | ally.py:220-221 | The target becomes the nearest enemy strictly inside the vision radius, first wins ties, which the ally can then see; none iff no enemy is in vision |
| Allies.Ally.RandomMove | ally.py:250-313 | Farther than 200 px from the player it walks toward the player; otherwise it wanders, re-rolling every 500 to 1000 ms |
| Allies.Ally.Move | ally.py:316-347 | Within 40 px or without a target nothing changes; otherwise the ally faces the target and advances, retreats, or in the roaming band follows the player beyond 200 px and otherwise takes its wander step. The wander state is kept except in that last case, where it is re-rolled every 500-1000 ms as `random_move` does |
| Allies.Ally.Blink | ally.py:452-461 | Stage 0 jumps 96 px in the drawn cardinal direction and starts stage 1's timer |
| Allies.Ally.Attack | ally.py:366-390 | Behind the 3.5 s cooldown the shared decision tree, with every throw on the player's side and a swarm cast releasing 25 swarms |
| Allies.Ally.TakeDamage | ally.py:433-444 | hp falls by the amount, vision radius +300, knockback starts, blood of `max(1, int(amount))`; at hp ≤ 0 dying with an empty rect |
| Allies.Ally.SpecialTeleportAttack | ally.py:451-478 | Stages 0 → 1 → 2 → 0 with the 200 ms pause, a player-side fireball at the target, re-chaining by the chain rule; a target on the ally's own centre is a ValueError with nothing changed |
| Allies.Ally.Borderless | ally.py:417-426 | Each axis wraps on its own, so an ally that fits in the map ends wholly inside it |
| Players.CurveAtLeastLinear | player.py:280-298 | The level curve grows at least linearly, so the level search ends |
| Players.CurveIncreasing | player.py:280-298 | The level curve is strictly increasing |
| Players.LevelFrom | player.py:280-298 | The search from L on finds the level for the experience, no lower than L |
| Players.LevelOf | player.py:280-298 | The least level L ≥ 1 with experience < 50/3 × curve(L) |
| Players.LevelUnique | player.py:280-298 | Each experience has exactly one level |
| Players.LevelMonotone | player.py:280-298 | More experience never gives a lower level |
| Players.LevelIs | player.py:280-298 | A level whose threshold the experience is below, and the previous one's not, is the level |
| Players.LevelThresholds | player.py:280-298 | Below 0 experience is level 1; levels 2 to 6 start at 0, 100, 200, 400 and 800, and level 6 lasts until 1500 |
| Players.ChargeTier | player.py:264-273 | Under 1000 ms nothing; 1000 to 1999 ms medium iff mana > 10; 2000 ms or more strong iff mana > 30 |
| Players.Regen | player.py:613-617 | Regeneration adds rate × dt and never exceeds the cap, clamping exactly when it would |
| Players.Saved | player.py:333-342 | A saved state is never empty |
| Players.Loaded | player.py:344-353 | An empty state changes nothing; otherwise experience, hp, maximum hp, mana, maximum mana and the inventory each come from the state when present and stay as they were when absent, and gold is 0 when absent |
| Players.LoadSaveRoundTrip | player.py:333-353 | Loading a saved state restores exactly the saved snapshot |
| Players.LoadIdempotent | player.py:344-353 | Loading the same state twice is loading it once |
| Players.Slotted | player.py:663-671 | A fireball cannot be absorbed (KeyError); an unknown item leaves the slots; a ranged weapon fills the ranged slot and a melee one the melee slot |
| Players.DropsAlwaysSlot | player.py:663-671 | Every droppable item is absorbed into its slot |
| Players.PlayerWrap | player.py:396-405 | Keeps the size; past the right edge plus one tile the rect goes to x = 0, else left of 0 it goes to the map's width; below the map it goes to y = 0, else above 0 its bottom goes to the map's height; a rect on the map stays in place |
| Players.StrikeArea | player.py:231-252 | The melee area is centred 20 px along the facing, twice the reach wide and high |
| Players.StruckIndices | player.py:254-262 | Exactly the enemies the melee area meets within reach, each once, in order |
| Players.Player.constructor | player.py:39-160 | The loaded experience, hp, mana, inventory and gold; the level of that experience with its stats; throw speed and ninjutsu grown by level; a 32 × 32 rect at the position |
| Players.Player.CalculateLevel | player.py:280-298 | Returns the level of the experience and sets max hp, max mana, speed, attack range and regeneration for it, while throw speed and ninjutsu grow on top of their old values |
| Players.Player.LoadState | player.py:344-353 | The snapshot becomes the loaded one |
| Players.Player.SaveStateOf | player.py:333-342 | Loading the saved state gives back the current snapshot |
| Players.Player.UpdateDirection | player.py:592-602 | The facing of the vector: horizontal when |x| > |y|, vertical otherwise |
| Players.Player.RegenerateMana | player.py:613-617 | Mana and hp regenerate and stay within their maxima |
| Players.Player.FindClosestEnemy | player.py:488-496 | The nearest enemy within the maximum distance, the circle included, first wins ties |
| Players.Player.AbsorbItem | player.py:663-671 | The inventory becomes the slotted one, or an error leaves it unchanged |
| Players.Player.MediumAttack | player.py:532-547 | With mana ≥ 10, the shot aims from the player's centre at the nearest enemy within 900 px (circle included, first wins ties) and costs exactly 10 mana; no shot and no cost when no such enemy or mana < 10 |
| Players.Player.StrongAttack | player.py:549-568 | Costs exactly 30 mana; locks onto the nearest enemy within 900 px (first wins ties) while invincible, or resets at once when there is none |
| Players.Player.PerformSpecialAttack | player.py:264-273 | The charge tier decides between nothing, the medium attack and the strong attack. The medium tier fires at the nearest enemy within 900 px (first wins) for 10 mana, or changes nothing. The strong tier spends 30 mana and locks on to that nearest enemy while invincible for at most 5 s, or resets at once when none is in reach. Below the strong tier the Raikiri state is untouched |
| Players.Player.TakeDamage | player.py:619-645 | Nothing while invincible. Otherwise a Kawarimi draw below 0.22 refunds the damage and jumps 128 px, and blood is `int(2 × amount)`. At hp ≤ 0 the player dies and the invincibility and knockback fields keep their values; else it becomes invincible and is knocked back at 200 × the direction, both from now |
| Players.AfterHit | player.py:633-645 | After a landed hit the player stays alive iff hp > 0; then invincibility and knockback start now; at hp ≤ 0 only `alive` changes |
| Players.Player.Borderless | player.py:396-405 | The rect wraps as `PlayerWrap` states |
| Players.Player.HandleMeleeAttack | player.py:180-198 | Within the cooldown nothing. Otherwise a fist strikes for 10 within 50 px and a sword for 20 within 70 px, each hitting exactly the struck enemies |
| Players.Player.ScanStrike | player.py:254-262 | The struck enemies, in order |
| Levels.TerrainNamed | level.py:23-52 | A known element name maps to the terrain of that name |
| Levels.TerrainNameRoundTrip | level.py:23-37 | Every terrain is found under its own name |
| Levels.Clamp | level.py:47-49 | A clamped coordinate lies on the grid |
| Levels.Placement | level.py:39-52 | An on-grid write lands as asked; an off-grid one lands on the nearest edge cell as grass |
| Levels.Paint | level.py:39-52 | One write keeps every written cell on the grid |
| Levels.PaintColumn | level.py:59-69 | A column of writes keeps every written cell on the grid |
| Levels.PaintRect | level.py:54-69 | A rectangle of writes keeps every written cell on the grid |
| Levels.ColumnCell | level.py:59-69 | A column write gives its cells the terrain and leaves the others |
| Levels.RectCell | level.py:54-69 | A rectangle write gives its cells the terrain and leaves the others, wherever clamping cannot interfere |
| Levels.SpillPaintsBorderGrass | level.py:54-69 | A rectangle spilling past the border turns border cells it wrote to grass |
| Levels.MapController.constructor | level.py:23-37 | The grid has the given size and every cell reads as unwritten |
| Levels.MapController.ElementAt | level.py:90-93 | None off the grid; a result is the cell's content |
| Levels.MapController.AddElement | level.py:39-52 | An unknown name raises ValueError and writes nothing. Otherwise the write lands as `Placement` says and no other cell changes |
| Levels.MapController.AddRect | level.py:54-69 | An unknown name raises ValueError and writes nothing; otherwise the grid becomes the painted rectangle |
| Levels.MapController.IsAreaEmpty | level.py:70-80 | True exactly on the grid with every on-grid cell of the 3 × 3 block empty |
| Levels.MapController.Scan | level.py:82-101 | Exactly the matching cells, each once, in row-major order |
| Levels.MapController.FindEmptyAreas | level.py:82-88 | Exactly the cells with an empty block, each once, in row-major order |
| Levels.MapController.FindElementsOfType | level.py:95-101 | Exactly the cells holding the terrain, each once, in row-major order |
| Levels.MeleeOutcome | level.py:505-523 | Fails exactly on a zero denominator. Each side lands exactly when its draw is under its odds; the player's landed damage is `max(5, p.melee - e.melee - p.defense)`, the enemy's `max(5, p.melee - e.defense)`, and a miss is 0 |
| Levels.MeleeOdds | level.py:505-523 | A side with no melee skill never lands; a positive skill against no defence always lands |
| Levels.DamageEventsMeaning | level.py:563-569 | Every event is a striking projectile's hit on an enemy it met, and every enemy a striking projectile met takes its damage |
| Levels.DamageKills | level.py:563-569 | A projectile dies exactly when it strikes and met an enemy |
| Levels.Keep | level.py:563-569 | Every projectile not marked dead survives, every survivor came from the group, the count drops by exactly the number of deaths, and all of it stays when nothing died |
| Levels.Deaths | level.py:563-569 | The number of projectiles a pass kills, at most the group's size |
| Levels.Arbitrate | level.py:594-620 | A pair of two ricochets is ignored. Otherwise each destructible member is destroyed, none when both are indestructible |
| Levels.ArbitrateAsWritten | level.py:597-602 | As written, any pair whose second member is a ricochet is ignored; otherwise the intended rule |
| Levels.AsWrittenSkipsLaterRicochet | level.py:597-602 | The two rules differ exactly on a fresh projectile followed by a ricochet that the rule would have broken |
| Levels.AsWrittenIsOrderDependent | level.py:597-602 | As written, the verdict for a kunai and a ricochet kunai depends on their order; the intended rule does not |
| Levels.Ricochet | level.py:622-636 | A new ricochet kunai of the same side exactly for a kunai that was not itself a ricochet |
| Levels.RicochetsDoNotChain | level.py:622-636 | A ricochet never ricochets again |
| Levels.Destroy | level.py:622-636 | Destruction always kills its projectile and touches no other |
| Levels.Resolve | level.py:581-620 | After one pair, under the chosen rule, a projectile is dead exactly when it was already or the pair touches and its verdict kills it |
| Levels.PairScanKills | level.py:577-636 | The rest of a pass kills exactly the projectiles already dead plus those some touching pair still ahead kills, both directions |
| Levels.PairScanFacts | level.py:577-636 | The rest of a pass kills only destructible projectiles, never revives one and appends only ricochet kunai |
| Levels.ResolveFacts | level.py:581-636 | One pair kills only destructible projectiles and appends only ricochet kunai after the earlier spawns |
| Levels.PairPass | level.py:577-636 | The whole pass kills only destructible projectiles and spawns only ricochets |
| Levels.PairPassKills | level.py:577-620 | Under either rule the pass kills exactly the projectiles that some touching pair's verdict kills |
| Levels.IntendedPairBreaks | level.py:594-620 | Under the intended rule two touching destructible projectiles, not both ricochets, both die whatever their order |
| Levels.AsWrittenPassSparesRicochet | level.py:597-602 | The program's pass leaves a thrown kunai and a touching later ricochet kunai both alive; the intended pass kills both |
| Levels.LoneProjectileSurvives | level.py:577-620 | A projectile touching no other one survives the pass |
| Levels.EnemyRank | level.py:276-286 | The enemy roll always gives a real rank |
| Levels.AllyRank | level.py:300-310 | The ally roll always gives a real rank |
| Levels.RankRollsMonotone | level.py:276-310 | A higher draw never rolls a stronger rank |
| Levels.AllyRollFavoured | level.py:276-310 | On the same draw the ally is never weaker than an enemy |
| Levels.AdjustWallThickness | level.py:396-400 | Below 0.5 exactly one thinner, or 1 when that would go under 1; otherwise exactly one thicker |
| Levels.WallThicknessBounds | level.py:365-366 | A wall at least one tile thick stays so and grows by at most one per adjustment |
| Levels.BloodCount | level.py:706-711 | `min(amount, 5)` particles, none for a non-positive amount |
| Levels.FullSplash | level.py:706-711 | A player hit of 2.5 or more throws all five particles |
| Levels.NextLevel | level.py:658-664 | The next level number with its experience added; a KeyError past level 30 |
| Levels.LastLevelHasNoSuccessor | level.py:658-664 | Finishing level 30 is a KeyError; every earlier level adds a positive amount of experience |
| Levels.Level.constructor | level.py:113-156 | Both melee timestamps start at 0 and the projectile group is empty |
| Levels.Level.MeleeCombat | level.py:495-523 | Within 2000 ms of either timestamp (0, 0) and no change; otherwise both timestamps become now and the exchange is rolled |
| Levels.Level.CheckPlayerEnemyCollisions | level.py:531-550 | Changes only the two timestamps and the player fields `take_damage` writes. An invincible player, a cooldown not yet over or no contact: Ok([]) and nothing changes. Otherwise only the first contact's exchange passes the shared cooldown: the pass is an Err exactly when MeleeOutcome is, the player loses the player's share (or jumps on a Kawarimi draw) only when the centres differ, then dies or is made invincible and knocked back along the unit vector from the enemy as GuardAfter states, and the one event is the enemy's share when the centres differ |
| Levels.Level.Encounter | level.py:533-549 | One contact while the player is vulnerable, changing only the timestamps and the fields `take_damage` writes: nothing before the cooldown ends; otherwise both timestamps become now, the shares are applied as ExchangeOutcome and GuardAfter state, or the ZeroDivisionError is returned |
| Levels.GuardAfter | level.py:537-542 | A hurt player (positive share, centres apart) is killed at hp ≤ 0, else made invincible and knocked back at 200 × the unit vector from the enemy's centre, from now; an unhurt player's guard is unchanged |
| Levels.Level.CheckProjectileCollisions | level.py:563-569 | The damage events of the pass, and the group after its kills |
| Levels.Level.CheckProjectileProjectileCollisions | level.py:577-636 | The group becomes its survivors followed by the ricochets spawned, under the program's own pair rule (ArbitrateAsWritten) |
| Levels.StrikeAll | level.py:567-569 | One projectile's hits on the enemies it met, in order |

## Left out

- Rendering, sprite sheets, masks, images, sound, lighting, weather, grass, the UI, menus and the main loop are not part of this model.
- Procedural map generation (`create_random_map`, `create_walls`, trees, rocks, the river and the bonfire) is not modelled. Only the grid it writes and the wall-thickness and rank rolls are.
- The Level constructor's world building (sprite groups, player, enemies, ally, map) is left out. `Levels.Level.constructor` only sets the collision pass's own state.
- enemy.py is not part of this model. Damage to enemies is reported as `EnemyHit` events rather than applied.
- The InsectSwarm branch of `check_projectile_collisions` (level.py:571-576) is left out. It runs a group-wide collide over a heterogeneous group. Its damage is `self.Ally.multiplier`, the ally `create_ally` sets (level.py:313).
- The InsectSwarm-vs-fireball branches (level.py:586-591) never run. The pair pass only sees `Projectile` members, and InsectSwarm is not one, so the model omits them.
- `check_projectile_player_collisions` (level.py:638-656) is not modelled beyond the fireball's own collision rule.
- The ricochet's random direction and the knockback vectors of hits on enemies and allies are not modelled. Sqrt and normalisation are replaced by raw vectors or squared distances.
- Mask and rect collisions are inputs (lists of touching sprites), not computed from pixels.
- `prevent_stacking`, `reset`, the knockback and death animations, `death_start_time`, and the sprite-only `Ally.update` steps are left out. The water magic, the shuriken and sword charge attacks, and jumping are left out too.
- The stub `Ally`/`Enemy` subclasses in characters.py are left out. Only the shared `Character` rules are modelled.
- The camera's zoom factor is left out, since it is stored but never used.
- Random draws, the clock and any I/O are parameters. The draws are assumed to lie in the ranges Python's `random` gives.
- The inventory is a value: the model does not capture a dictionary shared by aliasing between a saved state and the player.
- `MapController` assumes a grid at least one cell wide and high, which the level table guarantees. `find_elements_of_type` takes a terrain rather than any string, since an unknown name matches nothing.
- Players.Player.constructor: states the loaded fields, the level's stats, the derived speeds and the rect; the other starting values (flags, timers, cooldowns) are set in its body but not restated.
- Players.LevelOf: the float threshold `50/3 × curve` is compared exactly, as 3 × experience < 50 × curve.
- Levels.Ricochet: always spawns for a fresh kunai. `handle_projectile_destruction` spawns nothing when its random vector has length zero (level.py:624-625); the model takes no direction draw, so that case is not captured.
- Levels.Level.CheckPlayerEnemyCollisions: the distance between the centres is an input whose square is tied to the centres at the start of the pass; only the first contact's exchange can hurt the player, so later contacts never use it.
- Projectiles.Projectile.Update: keeps the rect's size. The source rebuilds the rect around the rotated image every frame (projectile.py:33, 50-52), which changes the rect that `check_bounds` tests; image rotation is not modelled.
- Characters.Character.FindClosestEnemy: models both faction branches as characters.py:216-249 writes them. It does not capture that the enemy branch reads `self.level.allies`, which the level never defines (it has `self.ally`), so that branch raises AttributeError. Nor does it capture that a Character that is neither an Ally nor an Enemy scans nothing and clears its target.
- Tiles.Tile.RemoveEffect: compares effects by value. tile.py:25-26 uses `in` and `remove` on effect objects that define no `__eq__`, so Python compares them by identity. Removing an equal but distinct effect object removes nothing in the program and one copy in the model.
- Tiles.RemoveFirst: the same value-for-identity substitution as `Tiles.Tile.RemoveEffect`, which it specifies.
- Characters.Character.constructor: gives every character the wander fields and the behaviour string. characters.py never sets them; only the ally's constructor does (ally.py:59, 103-106).
- KeyNotifier.KeyPressedNotifier: the handler list is a field of one notifier object. key_pressed_notifier.py:2 keeps it on the class, so every use shares it; the model does not capture two notifiers sharing one list.
- Levels.NextLevel: on the KeyError path the result does not carry the level number, which level.py:659 has already raised by one before the lookup fails.

## Findings

| source | as written | input that shows it | evidently intended | confidence | as-written member | corrected member |
|---|---|---|---|---|---|---|
| projectile.py:73-93 | The player and ally hits of the fireball check do not return, so later checks still run in the same update | An enemy-side fireball that hits a non-jumping player and overlaps the ally in the same frame, with no trunk or wall | The first match ends the check, so a fireball explodes at most once | not executed | Projectiles.DoubleExplosionAsWritten | Projectiles.FireballExplodesAtMostOnce |
| level.py:597-602 | The first projectile's `from_collision` read is lost inside a comment, and the test checks the second projectile's flag twice | A thrown kunai followed in the group by an overlapping ricochet kunai | Skip a pair only when both are ricochets, so the two kunai break | not executed | Levels.AsWrittenPassSparesRicochet | Levels.IntendedPairBreaks |
