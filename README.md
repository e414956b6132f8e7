# Sheriff & Bandit gameplay core, modelled in Dafny

This project models the engine-independent logic of the gameplay scripts of a
top-down twin-stick game:

- **Character weapon state.** There are three controllers: the current
  `SheriffBehavior`, the `BanditBehavior`, and an older `SheriffBehavior`
  with the same class name. Each becomes a class in its own module
  (`SheriffCharacter`, `BanditCharacter`, `LegacySheriffCharacter`).
  - An attack is refused when the equipped weapon's asset holds 0 rounds.
    Otherwise it is refused when that attack kind's ready flag is down.
    Otherwise it fires: it lowers the flag and takes one round from the
    weapon asset itself.
  - A cooldown expiry raises the flag again.
  - `SwitchWeapon` steps through a fixed ring of three weapons and raises
    both flags.
  - The shared rules are pure functions in module `Weapons`: `Attack`,
    `Cooldown`, `Switch`, `Next`. Each class method's `ensures` ties the
    class's `State()` to one of them.
  - The WeaponData assets are a map from `WeaponID` to a record. An attack
    lowers the asset's own count, so each weapon keeps its remaining rounds
    while another one is equipped. `Resources.Load` is a lookup in that map.
- **The current Sheriff** also has:
  - an `Ammo`/`MaxAmmo` mirror of the equipped asset, kept as an invariant;
  - a weapon number (1, 2, 3). The initialiser sets it to 1 whatever gun is
    serialized, so it matches the gun from the start only for the revolver,
    and after the first switch for any gun (`NumberInSync`);
  - a `weaponChanged` pulse that `WeaponChange` clears;
  - fixed health losses per collision name or trigger tag.
- **The older Sheriff** adds every bullet to `currBullets`. That list is
  declared and never assigned, so it is null. An attack that passes both
  guards instantiates its bullet and then throws on `currBullets.Add`. The
  exception comes before the flag is lowered or the round is taken. The
  model keeps the list as an `Option` that starts as `None`, and reports
  that ending as `NullBulletList`.
- **`ClampPlayer`** is the same box clamp in all three controllers. It is
  `Screen.Clamp` over reals.
  - The Bandit and the older Sheriff clamp after every movement step.
  - In the current Sheriff the clamp call in `FixedUpdate` is commented
    out, so its `MoveStep` does not clamp.
- **The wave spawner** (`GameController`, module `Waves`) keeps an enemy
  counter and a wave index.
  - `SpawnEnemies(n)` maps each draw from 1..9 to enemy type 4, 3 or 2. The
    branch for type 1 needs the draw 10, which `Random.Range(1, 10)` never
    returns.
  - Each iteration instantiates every kind whose multiplier equals the
    type, and counts one enemy whether zero, one or several kinds matched.
  - `Update` advances the wave only when the counter is exactly 0 and the
    wave is not 4. It spawns the next wave in the same call, because the
    `WaveBreak` coroutine it starts delays nothing.
  - `RemoveEnemy` does not clamp at zero. A negative counter stalls the
    waves until enough `AddEnemy` calls bring it back to 0.
- **The loot drop** (`LootTableAndDropBehavior`, module `Loot`) always
  drops a cell at the given position.
  - Each chance (there is one) then draws from 1..19. The draw selects an
    extra cell (1–2), health (5–6), ammo (12–13) or nothing.
  - The third band spawns the ammo prefab although its comment says
    health.
  - When an extra item drops, the position first shifts by −1 or 0 on each
    axis.

The code's behaviour is modelled, not the behaviour one would expect of such
a design:
- a weapon switch copies the new weapon's stored count and does not refill it;
- the enemy counter is not clamped;
- there is no intermission between waves.

Random draws, the attack point and the frame's movement delta are method
parameters. `Instantiate` becomes an append to a log (`shots`, `scene`,
`spawned`, `dropped`). Coroutine timers become explicit expiry methods.

The main properties proved:
- `Weapons.AmmoStaysNonNegative`: over any sequence of attacks, cooldowns
  and switches, no weapon's round count goes negative if none starts
  negative.
- `Weapons.AmmoAccounting`: the rounds held by the ring fall by exactly the
  number of shots fired.
- `Weapons.NeverRefills` and `Weapons.AmmoWithinMax`: no event raises a
  round count or changes a MaxAmmo, so every weapon stays within
  0..MaxAmmo.
- `Weapons.SwitchPeriod`: switching has period three.
- `Waves.WaveBounded`: the wave stays in 1..4 and never decreases.
- `Waves.NegativeCounterStalls`: from a negative counter, Updates change
  nothing.
- `Waves.BatchShape`: every spawned enemy lies in the arena, and no kind
  whose multiplier is 1 ever spawns.
- `Loot.RollsBounds`: the bounds on drop count and drop position.

## Model

| member | source | states |
|---|---|---|
| Screen.Clamp | ControllerProject/Assets/Scripts/CharacterScripts/Sheriff/SheriffBehavior.cs:363-384 | the result lies in [-8.4, 8.4]×[-4.5, 4.5]; an on-screen position is returned unchanged; each coordinate is either kept or moved onto the edge it crossed |
| Screen.ClampIdempotent | ControllerProject/Assets/Scripts/CharacterScripts/Bandit/BanditBehavior.cs:288-309 | clamping a clamped position changes nothing |
| Screen.ClampIsNearest | ControllerProject/Assets/Scripts/CharacterScripts/SheriffBehavior.cs:258-279 | on each axis the clamped position is at least as close to the requested one as any on-screen point |
| Weapons.Next | ControllerProject/Assets/Scripts/CharacterScripts/Sheriff/SheriffBehavior.cs:253-277 | the next weapon differs from the current one and lies in the same ring (REVOLVER→SHOTGUN→PISTOL→REVOLVER, DYNAMITE→COCKTAILS→FIRECRACKERS→DYNAMITE) |
| Weapons.SwitchPeriod | ControllerProject/Assets/Scripts/CharacterScripts/Bandit/BanditBehavior.cs:194-215 | k switches land on the same weapon as k mod 3 switches; 3k switches restore the starting weapon |
| Weapons.Attack | ControllerProject/Assets/Scripts/CharacterScripts/Sheriff/SheriffBehavior.cs:156-178 | 0 rounds: nothing changes, whatever the flag; rounds but flag down: nothing changes; otherwise it fires with the kind's damage, lowers only that flag, lowers the equipped asset's rounds by exactly 1, and leaves the other flag, the weapon and every other asset unchanged |
| Weapons.Cooldown | ControllerProject/Assets/Scripts/CharacterScripts/Sheriff/SheriffBehavior.cs:188-192 | the expiring kind's flag is raised; the other flag, the weapon and the assets are unchanged |
| Weapons.Switch | ControllerProject/Assets/Scripts/CharacterScripts/Sheriff/SheriffBehavior.cs:277-281 | the next weapon of the ring is equipped, both flags are raised, and no asset changes (no refill) |
| Weapons.Step | ControllerProject/Assets/Scripts/CharacterScripts/Bandit/BanditBehavior.cs:89-96 | one input event keeps the loadout valid; it fires a shot exactly when it is an attack that `Attack` lets through |
| Weapons.Replay | ControllerProject/Assets/Scripts/CharacterScripts/Bandit/BanditBehavior.cs:89-96 | any sequence of events keeps the loadout valid and the asset table's keys; at most one shot per event |
| Weapons.AmmoStaysNonNegative | ControllerProject/Assets/Scripts/CharacterScripts/Sheriff/SheriffBehavior.cs:202-219 | if no weapon starts with a negative round count, no sequence of attacks, cooldowns and switches makes one negative |
| Weapons.AmmoAccounting | ControllerProject/Assets/Scripts/CharacterScripts/Bandit/BanditBehavior.cs:120-221 | after any sequence of events the ring's total rounds plus the shots fired equal the total rounds before; switching never refills |
| Weapons.NeverRefills | ControllerProject/Assets/Scripts/CharacterScripts/Sheriff/SheriffBehavior.cs:253-286 | after any sequence of events every weapon keeps its MaxAmmo, damage and cooldowns, and no round count is higher than before: the switch reloads the stored asset and never refills it |
| Weapons.AmmoWithinMax | ControllerProject/Assets/Scripts/CharacterScripts/Bandit/BanditBehavior.cs:120-221 | if every weapon starts with 0 ≤ rounds ≤ MaxAmmo, that holds after any sequence of attacks, cooldowns and switches |
| SheriffCharacter.WeaponNumber | ControllerProject/Assets/Scripts/CharacterScripts/Sheriff/SheriffBehavior.cs:256-276 | the weapon number is 1 for the revolver, 2 for the shotgun, 3 for the pistol |
| SheriffCharacter.SheriffBehavior.constructor | ControllerProject/Assets/Scripts/CharacterScripts/Sheriff/SheriffBehavior.cs:44-100 | both attacks ready, the serialized gun equipped, Ammo/MaxAmmo copied from its asset, weapon number 1 whatever the gun (in step with it exactly when the gun is the revolver), health 200, no weapon-changed pulse |
| SheriffCharacter.SheriffBehavior.ChargeAtk | ControllerProject/Assets/Scripts/CharacterScripts/Sheriff/SheriffBehavior.cs:152-182 | one pass of the charged-attack loop is `Weapons.Attack` of the charged kind; the Ammo mirror follows the asset; exactly one shot with the charged damage is logged when it fires, none otherwise |
| SheriffCharacter.SheriffBehavior.ChargeWeaponCoolDown | ControllerProject/Assets/Scripts/CharacterScripts/Sheriff/SheriffBehavior.cs:188-192 | only the charged flag is raised |
| SheriffCharacter.SheriffBehavior.QuickAtk | ControllerProject/Assets/Scripts/CharacterScripts/Sheriff/SheriffBehavior.cs:198-228 | one pass of the quick-attack loop is `Weapons.Attack` of the quick kind; the Ammo mirror follows the asset; exactly one shot with the standard damage is logged when it fires |
| SheriffCharacter.SheriffBehavior.WeaponCoolDown | ControllerProject/Assets/Scripts/CharacterScripts/Sheriff/SheriffBehavior.cs:234-238 | only the quick-attack flag is raised |
| SheriffCharacter.SheriffBehavior.SwitchWeapon | ControllerProject/Assets/Scripts/CharacterScripts/Sheriff/SheriffBehavior.cs:253-286 | next gun of the ring with weapon number 2, 3, 1; both flags raised; Ammo/MaxAmmo equal the new gun's stored counts, not refilled; weaponChanged set |
| SheriffCharacter.SheriffBehavior.WeaponChange | ControllerProject/Assets/Scripts/CharacterScripts/Sheriff/SheriffBehavior.cs:292-296 | weaponChanged is cleared and nothing else changes |
| SheriffCharacter.SheriffBehavior.MoveStep | ControllerProject/Assets/Scripts/CharacterScripts/Sheriff/SheriffBehavior.cs:327-331 | the position moves by the frame's delta and is not clamped (the clamp call is commented out) |
| SheriffCharacter.SheriffBehavior.ClampPlayer | ControllerProject/Assets/Scripts/CharacterScripts/Sheriff/SheriffBehavior.cs:363-384 | the stored position is the clamped argument: on screen, and the argument itself when already on screen |
| SheriffCharacter.SheriffBehavior.OnCollisionEnter2D | ControllerProject/Assets/Scripts/CharacterScripts/Sheriff/SheriffBehavior.cs:391-405 | health drops by exactly 5 for either large-tumble name, 3 for the small tumble, and is unchanged for any other name |
| SheriffCharacter.SheriffBehavior.OnTriggerEnter2D | ControllerProject/Assets/Scripts/CharacterScripts/Sheriff/SheriffBehavior.cs:407-421 | health drops by exactly 10 for the explosion tag, 1 for the spike tag, and is unchanged for any other tag |
| SheriffCharacter.ThreeSwitchesRestore | ControllerProject/Assets/Scripts/CharacterScripts/Sheriff/SheriffBehavior.cs:253-286 | three switches restore the gun and its mirrored counts, with both attacks ready; the weapon number is then in step with the gun, and unchanged when it already was; health, position and the shot log are untouched |
| BanditCharacter.BanditBehavior.constructor | ControllerProject/Assets/Scripts/CharacterScripts/Bandit/BanditBehavior.cs:38-74 | both attacks ready, the serialized explosive equipped, health the serialized value (100 by default) |
| BanditCharacter.BanditBehavior.ChargeAtk | ControllerProject/Assets/Scripts/CharacterScripts/Bandit/BanditBehavior.cs:120-141 | the charged attack is `Weapons.Attack` of the charged kind |
| BanditCharacter.BanditBehavior.ChargeWeaponCoolDown | ControllerProject/Assets/Scripts/CharacterScripts/Bandit/BanditBehavior.cs:147-151 | only the charged flag is raised |
| BanditCharacter.BanditBehavior.QuickAtk | ControllerProject/Assets/Scripts/CharacterScripts/Bandit/BanditBehavior.cs:157-178 | the quick attack is `Weapons.Attack` of the quick kind |
| BanditCharacter.BanditBehavior.WeaponCoolDown | ControllerProject/Assets/Scripts/CharacterScripts/Bandit/BanditBehavior.cs:184-188 | only the quick-attack flag is raised |
| BanditCharacter.BanditBehavior.SwitchWeapon | ControllerProject/Assets/Scripts/CharacterScripts/Bandit/BanditBehavior.cs:194-222 | next explosive of the ring, both flags raised, no asset changed |
| BanditCharacter.BanditBehavior.MoveStep | ControllerProject/Assets/Scripts/CharacterScripts/Bandit/BanditBehavior.cs:252-256 | after each movement step the position is the clamp of the moved position, so it is on screen |
| BanditCharacter.BanditBehavior.ClampPlayer | ControllerProject/Assets/Scripts/CharacterScripts/Bandit/BanditBehavior.cs:288-309 | the stored position is the clamped argument |
| BanditCharacter.BanditBehavior.OnCollisionEnter2D | ControllerProject/Assets/Scripts/CharacterScripts/Bandit/BanditBehavior.cs:316-326 | health is unchanged |
| BanditCharacter.BanditBehavior.OnTriggerEnter2D | ControllerProject/Assets/Scripts/CharacterScripts/Bandit/BanditBehavior.cs:328-334 | health is unchanged |
| LegacySheriffCharacter.SheriffBehavior.constructor | ControllerProject/Assets/Scripts/CharacterScripts/SheriffBehavior.cs:20-51 | both attacks ready, the serialized gun equipped, the bullet list null |
| LegacySheriffCharacter.SheriffBehavior.ChargeAtk | ControllerProject/Assets/Scripts/CharacterScripts/SheriffBehavior.cs:98-120 | 0 rounds or flag down: no flag, asset or list change; a shot with a list appends exactly one bullet, and flag and asset follow `Weapons.Attack`; a shot with the null list instantiates the bullet and throws, changing no flag, asset or list |
| LegacySheriffCharacter.SheriffBehavior.ChargeWeaponCoolDown | ControllerProject/Assets/Scripts/CharacterScripts/SheriffBehavior.cs:126-130 | only the charged flag is raised |
| LegacySheriffCharacter.SheriffBehavior.QuickAtk | ControllerProject/Assets/Scripts/CharacterScripts/SheriffBehavior.cs:136-158 | as ChargeAtk, for the quick attack |
| LegacySheriffCharacter.SheriffBehavior.WeaponCoolDown | ControllerProject/Assets/Scripts/CharacterScripts/SheriffBehavior.cs:164-168 | only the quick-attack flag is raised |
| LegacySheriffCharacter.SheriffBehavior.SwitchWeapon | ControllerProject/Assets/Scripts/CharacterScripts/SheriffBehavior.cs:174-202 | next gun of the ring, both flags raised, no asset and no bullet list changed |
| LegacySheriffCharacter.SheriffBehavior.MoveStep | ControllerProject/Assets/Scripts/CharacterScripts/SheriffBehavior.cs:224-228 | after each movement step the position is the clamp of the moved position |
| LegacySheriffCharacter.SheriffBehavior.ClampPlayer | ControllerProject/Assets/Scripts/CharacterScripts/SheriffBehavior.cs:258-279 | the stored position is the clamped argument |
| Waves.EnemyType | ControllerProject/Assets/Scripts/GameController.cs:98-114 | a draw in 1..9 gives type 4 exactly for 1–4, 3 exactly for 5–7, 2 exactly for 8–9; type 1 needs the draw 10 (or a larger draw after a type-1 iteration) |
| Waves.Matches | ControllerProject/Assets/Scripts/GameController.cs:115-134 | a kind spawns, at its own drawn spot, if and only if its multiplier equals the type; at most four spawns |
| Waves.MatchesOnce | ControllerProject/Assets/Scripts/GameController.cs:115-134 | no kind is instantiated twice in one iteration |
| Waves.BatchShape | ControllerProject/Assets/Scripts/GameController.cs:96-134 | for generator-range draws: at most 4 spawns per iteration, every position has x in [-33, 39] and y in [-32, 13], and every spawned kind has a multiplier in 2..4 |
| Waves.Advance | ControllerProject/Assets/Scripts/GameController.cs:56-81 | counter 0 and wave ≠ 4: wave +1 and the counter rises by the new wave's configured count in the same call; otherwise nothing changes |
| Waves.WaveBounded | ControllerProject/Assets/Scripts/GameController.cs:19-90 | from a wave in 1..4, any sequence of Update/AddEnemy/RemoveEnemy keeps the wave in 1..4, never lowers it, and raises it at most once per call |
| Waves.NegativeCounterStalls | ControllerProject/Assets/Scripts/GameController.cs:58-90 | with a negative counter, any number of Updates changes neither wave nor counter |
| Waves.GameController.constructor | ControllerProject/Assets/Scripts/GameController.cs:18-42 | wave starts at 1 with the serialized counter, counts and multipliers |
| Waves.GameController.Start | ControllerProject/Assets/Scripts/GameController.cs:46-51 | exactly the wave-1 count is spawned and counted |
| Waves.GameController.Update | ControllerProject/Assets/Scripts/GameController.cs:56-76 | the counter and wave follow `Advance`; the spawn log grows by the batch of the new wave, or not at all |
| Waves.GameController.AddEnemy | ControllerProject/Assets/Scripts/GameController.cs:82-85 | the counter rises by 1 |
| Waves.GameController.RemoveEnemy | ControllerProject/Assets/Scripts/GameController.cs:87-90 | the counter falls by 1, with no clamp |
| Waves.GameController.InstantiateMatching | ControllerProject/Assets/Scripts/GameController.cs:115-134 | the log grows by exactly the kinds whose multiplier equals the type |
| Waves.GameController.SpawnEnemies | ControllerProject/Assets/Scripts/GameController.cs:92-137 | the counter rises by exactly n, whatever the draws; the log grows by the batch; every new spawn is in the arena with a multiplier in 2..4 |
| Loot.Band | ControllerProject/Assets/Scripts/LootTableAndDropBehavior.cs:22-44 | 1–2 selects a cell, 5–6 health, 12–13 ammo, anything else nothing (disjoint bands) |
| Loot.Roll | ControllerProject/Assets/Scripts/LootTableAndDropBehavior.cs:20-44 | a draw outside the bands drops nothing and keeps the position; a draw in a band shifts the position once by the drawn offsets and drops exactly that band's item there |
| Loot.RollsBounds | ControllerProject/Assets/Scripts/LootTableAndDropBehavior.cs:18-45 | with offsets in {-1, 0}: at most one extra item per chance, and the position and every extra item stay within k units below and left of the start after k chances |
| Loot.LootTableAndDropBehavior.constructor | ControllerProject/Assets/Scripts/LootTableAndDropBehavior.cs:11-13 | nothing dropped yet |
| Loot.LootTableAndDropBehavior.DropLoot | ControllerProject/Assets/Scripts/LootTableAndDropBehavior.cs:15-46 | a cell at the unmodified position first, then the items of the totalChances = 1 chances; 1 to 1 + totalChances items in all, the extras within reach of the position |

## Left out

- Input wiring is not modelled. This covers the action maps and callbacks in
  `Awake`, `OnEnable` and `OnDisable`, `GameObject.Find`, the pause menu,
  sprite assignments and `print`. The printed messages become the `Outcome`
  values.
- `Resources.Load` is a lookup in the asset map. The model requires the
  equipped weapon to be in the character's ring, because an unknown weapon
  loads the empty name, which is engine behaviour. Unity's truthiness test
  on `weapon` always holds while the asset is loaded.
- `FixedUpdate`'s float arithmetic is not modelled: the movement velocity
  from input and `Time.deltaTime`, the scope position and distance
  (`Atan`, `Sqrt`, `Pow`), and the art direction. `MoveStep` takes the
  frame's delta as a parameter.
- Coroutine timing is not modelled: the `WaitForSeconds` durations, the
  auto-fire `for(;;)` loops of the current Sheriff (one pass is one
  attack call), and `StopShooting` with its `stopMe` handle. Cooldowns and
  the weapon-change pause are explicit expiry methods that may be called at
  any time. `WaveBreak` waits in a coroutine nobody awaits and has no
  effect.
- Random number generation is not modelled. Every draw is a parameter, and
  the generator's ranges are stated as preconditions.
- `SwitchPowerUp` is an empty stub in both controllers and is not modelled.
  Neither is the older Sheriff's unused `currPowerUps` list.
- Single-precision floats are not modelled. Positions, damage and cooldown
  values are reals, and the bounds 8.4f and 4.5f are the reals 8.4 and 4.5.
- Spawned objects are opaque records. What bullets, explosions,
  firecrackers, spikes and enemies do once spawned is outside this model:
  FirecrackerExplodeBehavior.cs, CactusSpikeBehavior.cs and
  SheriffBulletBehavior are not part of this model.
- Rotation (`Quaternion.identity`) and the damage value given to the current
  Sheriff's bullet component are kept only as the `damage` of each logged
  `Shot`.
