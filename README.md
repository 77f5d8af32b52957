# WarperBullet boss fight, modelled in Dafny

WarperBullet is a small bullet-hell game. This project models its game
logic: the boss's combat state machine (`game/boss.py`), the player
(`game/player.py`), bullets (`game/bullet.py`), the screen shake and impact
effects (`game/utils.py`) and the window and arena constants
(`game/settings.py`).

The boss is a `class Boss` whose fields are updated in place, as the Python
object's are. The fields are grouped into records: intro, attack clocks,
gauntlet clocks, phase flags, flashes, corners and waves. `Snapshot()` reads
them all back as one flat `BossState` value. Every method of the class is
proved to change that snapshot exactly as a pure function of module
`BossLogic` says. `Update` is proved to perform `Next`, the function for one
call of `update`. Properties of the fight are then proved about those
functions:

- the invariant every reachable state keeps;
- the phase-2 threshold and the intermission gauntlet;
- melee;
- the charge attack's delayed waves;
- the corner-division countdown;
- the attack bag: attacks are drawn without replacement, and the pool refills
  only once all four have been drawn.

The loops the source runs to spawn bullets and build wave queues are
methods with loop invariants, proved against specification functions in
`BossPatterns` and `WaveScheduler`.

Randomness, the keyboard and the player's position enter as parameters:

- `Draws` holds the values `random.random()`, `random.choice`,
  `random.uniform` and `random.randint` would return. Each is constrained
  to the range Python guarantees.
- `drift` is the normalised step towards the player.
- `aim` is the `atan2` angle in degrees.

Bullets are kept as a start position with a polar velocity (angle in
degrees, speed); the sine and cosine are not taken. The melee test compares
the squared distance with 70² instead of taking a square root.

Modules, one per file:

| Module | File | Contents |
|---|---|---|
| `Vectors` | `vectors.dfy` | vectors, squared distance, `int()` truncation, `% 360` |
| `Settings` | `settings.dfy` | window size, palette, collision rectangle |
| `Lists` | `lists.dfy` | `list.remove` and its lemmas |
| `Bullets` | `bullet.dfy` | `class Bullet` |
| `Effects` | `effects.dfy` | `class ScreenShake`, `class Impact` over an `array` of particles |
| `Players` | `player.dfy` | `class Player` |
| `BossPatterns` | `boss_patterns.dfy` | the bullet patterns as specification functions |
| `WaveScheduler` | `boss_waves.dfy` | the delayed-wave queue and its properties over whole runs |
| `BossLogic` | `boss_logic.dfy` | `BossState` and one function per step of `update` |
| `BossProperties` | `boss_props.dfy` | lemmas about single ticks |
| `BossRuns` | `boss_runs.dfy` | lemmas about runs of ticks and the attack bag |
| `BossMachine` | `boss.dfy` | `class Boss` and the loops that spawn bullets |

## Model

| member | source | states |
|---|---|---|
| Vectors.DistSq | game/boss.py:148-150 | the squared distance used for the melee range is never negative |
| Vectors.TruncInt | game/boss.py:164-168 | `int()` truncates towards zero: for x >= 0 the result n satisfies 0 <= n <= x < n + 1, and symmetrically for negative x |
| Vectors.Mod360 | game/boss.py:285 | Python's float `% 360` lands in [0, 360) and leaves angles already in that range unchanged |
| Settings.CollisionGeometry | game/settings.py:17-22 | the arena is 627 by 627 at (70, 70) with right and bottom edges at 697; it lies inside the window and is centred to within one pixel, because of the floor division |
| Settings.CollisionRectIs | game/settings.py:17-22 | `COLLISION_RECT` is exactly `Rect(70, 70, 627, 627)` |
| Settings.PaletteIsRgb | game/settings.py:4-14 | every palette colour is a valid RGB triple; the window is square and runs at 60 fps |
| Bullets.OutOfBoundsIsOutsideGrownWindow | game/bullet.py:47-48 | a bullet is culled if and only if it is outside the window grown by 10 pixels on every side |
| Bullets.Bullet.constructor | game/bullet.py:6-13 | stores position, velocity, colour and radius; the sprite rect is centred on the position with side four radii; the bullet is alive |
| Bullets.Bullet.SetRadius | game/bullet.py:19-22 | the radius setter replaces the radius and regrows the glow rect around the same centre; no other field changes |
| Bullets.Bullet.Update | game/bullet.py:44-49 | the position advances by the velocity, the rect follows it, and the bullet is killed if and only if it already was or is now out of bounds |
| Bullets.FlightIsLinear | game/bullet.py:44-46 | n updates move a bullet from its start by exactly n times its velocity |
| Bullets.OutOfBounds | game/bullet.py:47-48 | the cull test never removes a bullet that is inside the window |
| Bullets.Flight | game/bullet.py:44-45 | where a bullet is after n updates: a bullet with zero velocity stays at its start, and one update moves it by its velocity |
| Effects.ScreenShake.constructor | game/utils.py:27-30 | a new shake has zero duration, zero intensity and zero offset |
| Effects.ScreenShake.StartShake | game/utils.py:32-34 | sets the duration and intensity and keeps the current offset |
| Effects.ScreenShake.Update | game/utils.py:36-44 | while shaking, the duration counts down and the offset is the drawn pair within ±intensity, reset to zero on the tick it expires; otherwise the offset is kept; the result is the offset |
| Effects.FadedAlpha | game/utils.py:79 | `max(0, alpha - fade_speed * dt)` with a fade speed of 1275 per second: the linear fade while it stays positive, zero once it would not, and never above the old alpha for dt >= 0 |
| Effects.FadedAlphaStaysInRange | game/utils.py:75-79 | an alpha in [0, 255] stays in [0, 255] and does not rise |
| Effects.Impact.constructor | game/utils.py:47-67 | eight particles are created at the position with headings 45k + jitter, the drawn speeds and sizes, and full alpha; lifetime 0.2 |
| Effects.Impact.Update | game/utils.py:69-79 | the lifetime counts down; the impact is killed once it is spent, and then no particle changes; otherwise every particle moves by its velocity and fades |
| Lists.RemoveFirst | game/boss.py:212 | `list.remove` takes out one occurrence: the multiset loses that element and the length drops by one; a missing element leaves the list unchanged |
| Lists.RemoveFirstPutBack | game/boss.py:212 | putting the removed element back restores the multiset |
| Lists.RemoveFirstNoDup | game/boss.py:211-212 | removing from a duplicate-free pool keeps it duplicate-free and the removed attack is gone |
| Lists.RemoveEachKeepsHead | game/boss.py:192-193 | removing waves that differ from the head leaves the head in place |
| Players.KeyMove | game/player.py:30-38 | horizontal speed is +5 if and only if right is held (right beats left), -5 if and only if only left is held, and 0 if and only if neither; the same for down/up |
| Players.ClampAxis | game/player.py:81 | `clamp_ip` per axis: the result lies inside the span, is unchanged when already inside, and snaps to the nearer edge otherwise |
| Players.Player.constructor | game/player.py:5-24 | the player is centred at (x, y) with 3 hearts, not rolling, all timers zero, no direction |
| Players.Player.Update | game/player.py:26-85 | walking moves by the keys and remembers the last direction, or rolling moves by the roll step and ends with a 0.5 s grace and a 0.8 s cooldown; the timers count down; the rect is clamped into the arena |
| Players.Player.Walk | game/player.py:30-48 | not rolling: moves by the key step, updates the last direction when moving, and counts down the post-roll grace |
| Players.Player.Roll | game/player.py:49-58 | rolling: moves by the roll step; the roll timer counts down, and when it is spent rolling stops with the grace and cooldown set |
| Players.Player.EndFrame | game/player.py:60-85 | the hit and flash timers count down, the rect is clamped so the arena contains it, and the roll cooldown counts down |
| Players.Player.TakeDamage | game/player.py:87-96 | returns true if and only if not in debug mode and the hit timer is spent; a hit costs one heart and starts a 1.5 s grace and a 0.3 s flash; otherwise nothing changes |
| Players.Player.PressRoll | main.py:182-186 | a roll starts if and only if `can_roll()` holds and there is a last direction; it then rolls 0.35 s in that direction and the player is invulnerable and cannot roll again |
| Players.Player.Reset | game/player.py:106-121 | the player stands at the bottom centre with 3 hearts, all timers zero and no direction, so it is vulnerable and can roll |
| Players.Player.IsInvulnerable | game/player.py:98-101 | a rolling player is always invulnerable; otherwise exactly while the hit timer or the post-roll grace is running |
| Players.Player.CanRoll | game/player.py:103-104 | no roll can start during a roll; otherwise one can exactly when the roll cooldown is spent |
| BossPatterns.RandomSpreadShape | game/boss.py:287-297 | 12 yellow radius-5 bullets, bullet i within ±20° of 30i, speed in [3, 5], or [3.6, 6] in phase 2 |
| BossPatterns.WideSpreadShape | game/boss.py:299-316 | 12 red bullets from aim - 30 to aim + 30 in equal steps of 60/11, symmetric about the aim, speed 4, or 6 in phase 2 |
| BossPatterns.ChargeConfigFor | game/boss.py:319-332 | every charge configuration has at least one bullet per wave |
| BossPatterns.ChargeWavesShape | game/boss.py:318-356 | 8 waves of 24 rings, or 10 of 32 in phase 2; wave w fires at w·0.15 s (0.12 s), delays strictly rising; bullet i of wave w flies at 360i/n + w·offset with speed base + w/2 |
| BossPatterns.GauntletVolleyShape | game/boss.py:264-284 | 24 purple bullets: 16 at 22.5° steps with speed 8, then 8 with speed 6 at 45° steps offset by 22.5°, so each of the 8 shares the heading of an odd member of the 16 |
| BossPatterns.NextGauntletAngle | game/boss.py:285 | the next angle is in [0, 360) and differs from angle + 20·direction by a whole number of turns |
| BossPatterns.CornerAnchorsAre | game/boss.py:538-546 | the four corners are 50 pixels inside each corner of the arena |
| BossPatterns.CornerBurstShape | game/boss.py:515-536 | 16 red bullets, or 22 in phase 2, bullet i within ±10° of 360i/n, speed in [3, 5], or [4, 6] in phase 2 |
| BossPatterns.RandomSpreadBolts | game/boss.py:287-297 | twelve yellow radius-5 bullets, bullet i aimed at slot 30i moved by its own jitter draw |
| BossPatterns.WideSpreadBolts | game/boss.py:299-316 | twelve red radius-5 bullets, the first at aim - 30 and the last at aim + 30 |
| BossPatterns.ChargeWaves | game/boss.py:318-356 | 8 waves, or 10 in phase 2, the first due at once, each a ring of 24, or 32 in phase 2 |
| BossPatterns.GauntletBolts | game/boss.py:264-284 | 24 purple radius-5 bullets, the first aimed at the gauntlet angle |
| BossPatterns.CornerBolts | game/boss.py:515-536 | 16 red radius-5 bullets, or 22 in phase 2, each flying at its own speed draw |
| WaveScheduler.Due | game/boss.py:177-189 | the waves fired this tick are no more than the queue and each has reached its delay |
| WaveScheduler.Waiting | game/boss.py:191-193 | the waves kept are no more than the queue and none has reached its delay |
| WaveScheduler.Released | game/boss.py:178-188 | firing waves yields exactly as many bullets as they hold, all from the waves' origin |
| WaveScheduler.DueAppend | game/boss.py:178-189 | the due test goes wave by wave, so it distributes over concatenation |
| WaveScheduler.ReleasedAppend | game/boss.py:178-188 | the bullets of two runs of waves are the bullets of each in turn |
| WaveScheduler.RemovingDueLeavesWaiting | game/boss.py:191-193 | removing each fired wave with `list.remove` leaves exactly the waves not yet due, in their order |
| WaveScheduler.DueWaitingPartition | game/boss.py:177-193 | every queued wave is either fired or kept: together they are a permutation of the queue |
| WaveScheduler.WaitingNotDue | game/boss.py:177-193 | nothing left in the queue is due at the same time |
| WaveScheduler.WaitingIsStable | game/boss.py:173-193 | keeping at t and then at a later t' keeps the same waves as keeping at t' |
| WaveScheduler.WaitingKeepsBound | game/boss.py:191-193 | a bound on every delay still holds for the waves kept |
| WaveScheduler.NothingDueYet | game/boss.py:177-189 | before every delay nothing fires and the queue is kept whole |
| WaveScheduler.AscendingDueIsPrefix | game/boss.py:177-193 | for a queue in delay order, the fired waves are a prefix and the kept ones the rest |
| WaveScheduler.ChargeWavesAscending | game/boss.py:353-356 | the charge queue is stored in delay order |
| WaveScheduler.FiredOnce | game/boss.py:172-198 | over any run of ticks each queued wave fires at most once: fired and kept waves make up the original queue |
| WaveScheduler.AllDue | game/boss.py:191-196 | once the timer has reached every delay the queue empties |
| WaveScheduler.FiredAll | game/boss.py:172-198 | a run whose last timer reaches every delay leaves the queue empty |
| WaveScheduler.FiredEachOnce | game/boss.py:172-198 | such a run fires every queued wave exactly once |
| WaveScheduler.AscendingSuffix | game/boss.py:353-356 | any suffix of a queue in delay order is in delay order |
| WaveScheduler.AscendingWaitingIsSuffix | game/boss.py:191-193 | for a queue in delay order the waves kept are the suffix after the fired ones, still in order |
| WaveScheduler.FiredInOrder | game/boss.py:172-198 | a queue in delay order is fired in its stored order: the fired waves followed by those left are the queue |
| BossLogic.Refill | game/boss.py:205-208 | the pool drawn from is never empty: a non-empty pool is used as it is, and an empty one is refilled with all four attacks |
| BossLogic.New | game/boss.py:8-59 | a new boss starts its intro at (x, 50) with 700 health, a 3 s timer, all four attacks and no waves; `y` is not used |
| BossLogic.StartGame | game/boss.py:538-553 | the corners become the four anchors, nothing else changes, and the state is well formed |
| BossLogic.StartMarkers | game/boss.py:549-552 | one stationary marker bullet at each corner |
| BossLogic.Reset | game/boss.py:555-588 | the boss is back in the intro at its start position with full health, the full attack pool, no current attack, all phase flags cleared, no pulsing, and waves detached from its position; a well-formed boss stays well formed |
| BossLogic.ResetRestoresStart | game/boss.py:555-588 | after `reset` every field it assigns equals a fresh boss's: health, state, intro timer and position, attack pool and current attack, the phase flags, the state, charge, gauntlet, melee, flash and pulse timers, and the waves no longer follow the boss; the gauntlet direction and switch timer, the intermission delay, the wave queue and the corner lists are left as they were |
| BossLogic.Damaged | game/boss.py:362-368 | during the intro or a transition nothing changes; otherwise exactly 3 health is lost, with no floor, the hit flash is set to 0.1 and nothing else changes |
| BossLogic.SmoothStep | game/boss.py:66-68 | the smooth-step progress maps [0, 1] into [0, 1] and fixes both ends |
| BossLogic.IntroPos | game/boss.py:63-75 | the intro position lies between the start and the target on both axes, is the start at the full 3 s and exactly the target once the timer is spent |
| BossLogic.LerpBetween | game/boss.py:71 | interpolating with a progress in [0, 1] stays between the endpoints |
| BossLogic.IntroStep | game/boss.py:63-78 | the intro changes only its timer, the position and the mode, and turns idle exactly when the timer is spent |
| BossLogic.IntroPath | game/boss.py:63-78 | during the intro the boss stays between its start and the arena centre, and it lands exactly on the centre, idle, when the timer is spent |
| BossLogic.GauntletTurn | game/boss.py:244-250 | the gauntlet, fire and switch timers drop by dt; when the switch timer runs out the direction flips and the switch timer restarts at 2 s, otherwise both are kept; nothing else changes |
| BossLogic.StartGauntlet | game/boss.py:229-240 | the boss is in the gauntlet and transitioning, with no current attack, at the arena centre, with 10 s on the gauntlet timer; health, pool and phase are kept and the state stays well formed |
| BossLogic.GauntletFire | game/boss.py:252-254 | firing touches only the fire timer and the angle |
| BossLogic.GauntletFinish | game/boss.py:256-262 | the end test touches only the gauntlet and phase flags, the mode and the cooldown, and turns idle exactly when the timer is spent |
| BossLogic.GauntletStep | game/boss.py:242-262 | a gauntlet tick changes only gauntlet, phase, mode and cooldown fields; the timer drops by dt and the mode turns idle exactly when it is spent |
| BossLogic.GauntletShots | game/boss.py:252-254 | a gauntlet tick fires the 24-bullet volley from the boss exactly when the fire timer runs out, and nothing otherwise |
| BossLogic.CountTimers | game/boss.py:97-102 | the per-tick countdown changes only the state, cooldown and melee timers |
| BossLogic.ChooseAttack | game/boss.py:200-227 | during the cooldown nothing changes; otherwise the picked attack from the refilled pool becomes the mode and current attack, and the pool loses exactly that attack |
| BossLogic.Taken | game/boss.py:205-216 | drawing an attack removes exactly one copy of it from the refilled pool and makes it the current attack |
| BossLogic.Armed | game/boss.py:218-227 | arming sets only the attack's timers; mode, pool and position are kept |
| BossLogic.ChooseAttackKeepsNoDup | game/boss.py:205-212 | a duplicate-free pool stays duplicate-free, and the attack just drawn is no longer in it |
| BossLogic.EndAttack | game/boss.py:111-114 | ending an attack makes the boss idle with no current attack and keeps the pool |
| BossLogic.Drifted | game/boss.py:104-107 | the idle drift moves only the position; waves that share the position object follow it |
| BossLogic.ChargeExplosion | game/boss.py:318-360 | the explosion queues this phase's rings at the boss's own position object, starts firing and resets the wave timer |
| BossLogic.StartDivision | game/boss.py:469-476 | the division starts pulsing with the drawn delays and no corner exploded |
| BossLogic.CountedDelays | game/boss.py:498-503 | the delays of unexploded corners drop by dt; exploded ones are kept |
| BossLogic.CountedFlags | game/boss.py:498-503 | a corner has exploded if and only if it had before or its delay is now spent |
| BossLogic.CornersCounted | game/boss.py:497-503 | the countdown stores those delays and flags and changes nothing else |
| BossLogic.DivisionSettled | game/boss.py:505-513 | once every corner has exploded, pulsing stops and the boss is idle with a 3 s cooldown (2 s in phase 2); otherwise nothing changes |
| BossLogic.DivisionStep | game/boss.py:478-513 | the division step keeps the state well formed and the pool, and either keeps the mode or turns idle |
| BossLogic.IdleStep | game/boss.py:104-109 | an idle tick stays idle or starts an attack |
| BossLogic.SpreadStep | game/boss.py:110-125 | a spread tick keeps the attack or returns to idle, and keeps the pool |
| BossLogic.SpreadShots | game/boss.py:110-125 | a spread fires nothing once its state timer is spent; otherwise nothing or one full pattern of 12 bullets, all from the boss |
| BossLogic.ChargeStep | game/boss.py:126-136 | a charge tick keeps the attack or returns to idle, and keeps the pool |
| BossLogic.DivisionArmed | game/boss.py:144-145 | the division's start keeps the state well formed and the draws valid |
| BossLogic.DivisionAttackStep | game/boss.py:137-146 | a division tick keeps the attack or returns to idle, and keeps the pool |
| BossLogic.AttackStep | game/boss.py:104-146 | a fighting state never enters the intro or the gauntlet by itself |
| BossLogic.MeleeStep | game/boss.py:148-153 | a swing sets the 2 s melee cooldown and the 0.3 s flash; no swing changes nothing; nothing else changes |
| BossLogic.Swings | game/boss.py:146-148 | for the distance d between the boss and the player, the boss swings exactly when d < 70, the player is not rolling and the melee cooldown is spent |
| BossLogic.Struck | game/boss.py:154-157 | the player loses a heart if and only if the boss swings while the player's hit timer is spent, and then gets 0.5 s of grace; otherwise the player is unchanged |
| BossLogic.FlashStep | game/boss.py:159-170 | the hit flash changes only its timer and the body colour |
| BossLogic.BranchOf | game/boss.py:61-96 | the intro branch exactly during the intro; the threshold branch exactly when the threshold is crossed outside the gauntlet; the pause and gauntlet branches only in a transition; a fighting tick is past the intro, not a fresh crossing, and not in an active transition |
| BossLogic.Next | game/boss.py:61-198 | one call of `update` never changes health |
| BossLogic.Emitted | game/boss.py:61-198 | only gauntlet and fighting ticks add bullets |
| BossLogic.PlayerAfter | game/boss.py:148-157 | only a fighting tick touches the player; it loses at most one heart and keeps its position and roll state |
| BossLogic.Picked | game/boss.py:105-108 | an attack is picked only on a fighting tick, and it comes from the (refilled) pool |
| BossLogic.FlashColourInRange | game/boss.py:159-170 | with no flash the colour is the base purple; while the flash has not overrun, the colour is a valid colour with red equal to blue and red in [200, 255]; at full flash it is white |
| BossLogic.WaveStep | game/boss.py:172-198 | the wave loop changes only the queue, the firing flag and the wave timer |
| BossLogic.WaveShots | game/boss.py:172-185 | nothing fires while no waves are firing; otherwise the due waves' bullets, all from the waves' origin |
| BossProperties.FightBranchIs | game/boss.py:80-96 | under the invariant a tick fights if and only if it is past the intro, does not cross the threshold and is not in a transition |
| BossProperties.IntroNext | game/boss.py:63-78 | an intro tick is the intro step alone: no bullets, no melee, no attack drawn |
| BossProperties.GauntletNext | game/boss.py:89-95 | a gauntlet tick is the gauntlet step and volley alone: no melee, no attack drawn |
| BossProperties.FightNext | game/boss.py:97-198 | a fighting tick is timers, attack step, melee, flash and waves, in that order |
| BossProperties.FightStages | game/boss.py:97-198 | the bullets of a fighting tick are the attack's, followed by the waves' |
| BossProperties.TailFrame | game/boss.py:148-170 | melee and the flash change only their own four fields |
| BossProperties.WaveTailKeeps | game/boss.py:148-198 | melee, flash and waves keep the mode, corners, pool, health and phase flags |
| BossProperties.FightKeepsBranch | game/boss.py:97-198 | a fighting tick ends in the mode, corners and pool its attack step chose |
| BossProperties.StartIsInv | game/boss.py:8-59 | a new boss after `start_game` satisfies the invariant |
| BossProperties.ResetKeepsInv | game/boss.py:555-588 | `reset` keeps the invariant |
| BossProperties.DamagedKeepsInv | game/boss.py:362-368 | `take_damage` keeps the invariant |
| BossProperties.IdleKeepsInv | game/boss.py:104-109 | an idle tick keeps the invariant |
| BossProperties.ChargeKeepsInv | game/boss.py:126-136 | a charge tick keeps the invariant |
| BossProperties.DivisionKeepsInv | game/boss.py:137-146 | a division tick keeps the invariant |
| BossProperties.SpreadKeepsInv | game/boss.py:110-125 | a spread tick keeps the invariant |
| BossProperties.AttackStepKeepsInv | game/boss.py:104-146 | every attack branch keeps the invariant |
| BossProperties.FightKeepsInv | game/boss.py:97-198 | a fighting tick keeps the invariant |
| BossProperties.IntroKeepsInv | game/boss.py:63-78 | an intro tick keeps the invariant |
| BossProperties.IntermissionKeepsInv | game/boss.py:80-92 | entering or waiting out the intermission keeps the invariant |
| BossProperties.GauntletKeepsInv | game/boss.py:242-262 | a gauntlet tick keeps the invariant |
| BossProperties.NextKeepsInv | game/boss.py:61-198 | every call of `update` keeps the invariant: gauntlet and transition go together, phase 2 only after the threshold, direction ±1, angle in [0, 360), a duplicate-free pool, and the attack mode matching the current attack |
| BossProperties.NextKeepsHealth | game/boss.py:61-198 | `update` never changes the boss's health |
| BossProperties.FightKeepsHealth | game/boss.py:97-198 | nor does a fighting tick |
| BossProperties.NoDamageInGauntlet | game/boss.py:362-365 | during the gauntlet or any transition `take_damage` changes nothing |
| BossProperties.ThresholdStartsGauntlet | game/boss.py:80-87 | crossing 350 health puts the boss in the gauntlet at the centre, with the flags set, a 10 s timer, angle 30, direction 1 and a 2 s intermission, and nothing fired |
| BossProperties.GauntletEntryNeedsThreshold | game/boss.py:80-87 | the boss enters the gauntlet only by crossing the threshold, and the threshold and phase-2 flags are never cleared by `update` |
| BossProperties.IntermissionFlags | game/boss.py:89-92 | while the intermission pause lasts, the boss is in the gauntlet and the flags are kept |
| BossProperties.FightFlags | game/boss.py:97-198 | a fighting tick never enters the gauntlet and keeps the flags |
| BossProperties.IntermissionOnlyWaits | game/boss.py:89-92 | during the pause only the delay counts down: no bullets, no melee, no attack drawn |
| BossProperties.GauntletTick | game/boss.py:242-262 | in the gauntlet the direction flips every 2 s, a 24-bullet volley is fired exactly when the fire timer runs out, the angle stays in [0, 360), and when the 10 s are over phase 2 begins, idle with a 3 s cooldown |
| BossProperties.NoMeleeOutsideFight | game/boss.py:61-95 | the intro, threshold and transition ticks never touch the player |
| BossProperties.MeleeOnFightingTick | game/boss.py:148-157 | the boss swings exactly when the player is within 70 px of the boss's drifted position, not rolling, and the counted-down cooldown is spent; the swing costs a heart exactly when the player's hit timer is spent |
| BossProperties.WaveStepFollowsSchedule | game/boss.py:172-198 | the wave loop fires exactly the due waves, keeps exactly the waiting ones, and stops and clears its timer exactly when the queue is empty |
| BossProperties.WaveStepFiring | game/boss.py:172-198 | a firing step keeps exactly the waves not yet due, keeps firing exactly while some are left, and advances the wave timer or clears it once none is |
| BossProperties.ChargeFirstWaveOnly | game/boss.py:353-356 | before the second wave's delay only the first wave of a fresh charge queue is due |
| BossProperties.ChargeTickStages | game/boss.py:126-136 | a charge tick fires only the waves' bullets |
| BossProperties.TailKeepsWaves | game/boss.py:148-170 | melee and flash keep the queue and the charge fields |
| BossProperties.ChargeQueue | game/boss.py:126-132 | the charge counts down its wind-up, then queues its rings from the boss once, and keeps the old queue on every other tick |
| BossProperties.ExplodingCharge | game/boss.py:130-132 | on the exploding tick the fresh queue of rings is stored at the boss's position |
| BossProperties.SpentCharge | game/boss.py:127-136 | after the explosion the queue is left to the wave loop |
| BossProperties.FreshRingsTick | game/boss.py:172-198 | on the tick a fresh queue is stored, the due rings fire from the boss; before the second delay that is the first ring alone, 24 or 32 bullets |
| BossProperties.ChargeTickQueue | game/boss.py:97-170 | what a whole charge tick hands on to its wave loop |
| BossProperties.ChargeOutcome | game/boss.py:172-198 | the queue and bullets that result from that hand-over |
| BossProperties.ChargeExplodesOnce | game/boss.py:126-136 | over one call of `update` the charge explodes at most once, fires its due rings from the boss, and otherwise only advances the old queue |
| BossLogic.CornerShotsCount | game/boss.py:498-503 | the corner step fires 16 (or 22) bullets per corner that bursts this tick |
| BossLogic.CornerShotsOrigin | game/boss.py:515-516 | every corner bullet starts at the position of a corner that bursts this tick |
| BossLogic.DivisionShots | game/boss.py:478-503 | nothing fires while no division is pulsing; otherwise one ring per bursting corner, each bullet from its corner |
| BossProperties.CornerCountdown | game/boss.py:497-513 | exploded corners are kept; the others count down and explode exactly when spent; once all four have exploded the division ends |
| BossProperties.QuietCorners | game/boss.py:498-503 | with no corner bursting nothing is fired |
| BossProperties.DivisionFirstStep | game/boss.py:143-146 | the division's first step draws the four delays and counts them down at once, firing nothing |
| BossProperties.FreshCountdown | game/boss.py:478-503 | the first countdown of fresh delays fires nothing |
| BossProperties.DivisionArmsAtOnce | game/boss.py:137-146 | on the first tick of a division the boss starts pulsing with the drawn delays already counted down, and fires only waves still queued |
| BossProperties.IdlePool | game/boss.py:104-109 | an idle tick either keeps the pool or draws one attack from the refilled pool and enters it |
| BossProperties.BusyPool | game/boss.py:110-146 | an attacking tick never draws |
| BossProperties.QuietPool | game/boss.py:61-95 | intro, threshold and transition ticks keep the pool and draw nothing |
| BossProperties.TickPicks | game/boss.py:200-216 | every call of `update` keeps the pool, or removes exactly the attack it picks from the refilled pool |
| BossRuns.DrawingEmptiesPool | game/boss.py:205-212 | drawing as many attacks as a non-empty pool holds takes each of them once and leaves it to be refilled |
| BossRuns.EmptyDrawsAsFull | game/boss.py:205-208 | an empty pool draws as a full one does |
| BossRuns.DrawsComeInRounds | game/boss.py:205-212 | draws from a full or an empty pool come in rounds of four distinct attacks |
| BossRuns.RoundBlock | game/boss.py:205-212 | each aligned block of four in those rounds is a permutation of the four attacks |
| BossRuns.RunDrawsFromPool | game/boss.py:200-216 | over any run of `update` calls the attacks picked are drawn without replacement from the refilling pool, and the final pool is what those draws leave |
| BossRuns.RunPicksRounds | game/boss.py:205-212 | starting from a full or an empty pool, every aligned block of four attacks the boss picks over a run uses each attack exactly once |
| BossMachine.Spawn | game/boss.py:181-188 | the bullet loop adds one bullet per bolt, all from the same origin, in order |
| BossMachine.Markers | game/boss.py:548-552 | the marker loop adds one stationary marker per corner |
| BossMachine.ChargeQueue | game/boss.py:335-356 | the nested loops build exactly the phase's wave queue |
| BossMachine.ChargeRingLoop | game/boss.py:337-350 | the inner loop builds exactly ring w: bullet i at 360i/n plus w times the offset, with speed base + w/2 |
| BossMachine.DueWaves | game/boss.py:176-189 | the loop over the queue returns exactly the due waves and their bullets, in queue order |
| BossMachine.RemoveWaves | game/boss.py:191-193 | the removal loop removes each fired wave in turn |
| BossMachine.Boss.constructor | game/boss.py:8-59 | the new object's snapshot is `New(x, y)` |
| BossMachine.Boss.StartGame | game/boss.py:538-553 | sets the corners as `StartGame` says and returns a marker per corner |
| BossMachine.Boss.Reset | game/boss.py:555-588 | changes the fields exactly as `Reset` says |
| BossMachine.Boss.RestartIntro | game/boss.py:557-560 | restores health, the intro mode and timer, and the start position |
| BossMachine.Boss.ClearAttack | game/boss.py:562-588 | clears the attack, phase, gauntlet, flash and division fields `reset` assigns |
| BossMachine.Boss.TakeDamage | game/boss.py:362-368 | changes the fields exactly as `Damaged` says |
| BossMachine.Boss.IntroTick | game/boss.py:63-78 | performs `IntroStep` |
| BossMachine.Boss.StartGauntlet | game/boss.py:229-240 | performs `StartGauntlet` |
| BossMachine.Boss.UpdateGauntlet | game/boss.py:242-262 | performs `GauntletStep` and returns the volley `GauntletShots` |
| BossMachine.Boss.TurnGauntlet | game/boss.py:244-250 | performs `GauntletTurn` |
| BossMachine.Boss.FireIfDue | game/boss.py:252-254 | fires the volley exactly when the fire timer has run out, as `GauntletFire` says |
| BossMachine.Boss.EndGauntletIfDone | game/boss.py:256-262 | performs `GauntletFinish` |
| BossMachine.Boss.FireComplexGauntlet | game/boss.py:264-285 | returns the 24-bullet volley from the boss and turns the angle by 20° in the current direction, modulo 360 |
| BossMachine.Boss.GauntletVolley | game/boss.py:264-284 | the two loops produce the volley `GauntletBolts` from the boss |
| BossMachine.Boss.FireRandomSpread | game/boss.py:287-297 | the loop produces the random spread from the boss |
| BossMachine.Boss.FireWideSpread | game/boss.py:299-316 | the loop produces the wide spread from the boss |
| BossMachine.Boss.FireChargeExplosion | game/boss.py:318-360 | performs `ChargeExplosion` |
| BossMachine.Boss.StartParticleDivision | game/boss.py:469-476 | performs `StartDivision` |
| BossMachine.Boss.CreateCornerExplosion | game/boss.py:515-536 | the loop produces the corner's burst from that corner |
| BossMachine.Boss.CountCorners | game/boss.py:498-503 | the loop over the four corners returns the counted delays and flags and the bullets of the corners that burst |
| BossMachine.Boss.UpdateParticleDivision | game/boss.py:478-513 | performs `DivisionStep` and returns `DivisionShots` |
| BossMachine.Boss.StoreCorners | game/boss.py:498-503 | stores the counted corners as `CornersCounted` says |
| BossMachine.Boss.SettleDivision | game/boss.py:505-513 | performs `DivisionSettled` |
| BossMachine.Boss.CountDownTimers | game/boss.py:97-102 | performs `CountTimers` |
| BossMachine.Boss.ChooseAttack | game/boss.py:200-227 | performs `BossLogic.ChooseAttack` with the drawn index |
| BossMachine.Boss.ArmAttack | game/boss.py:218-227 | performs `Armed` |
| BossMachine.Boss.FinishAttack | game/boss.py:111-114 | performs `EndAttack` |
| BossMachine.Boss.DriftTowards | game/boss.py:105-107 | performs `Drifted` |
| BossMachine.Boss.IdleTick | game/boss.py:104-109 | performs `IdleStep` |
| BossMachine.Boss.SpreadTick | game/boss.py:110-125 | performs `SpreadStep` and returns `SpreadShots` |
| BossMachine.Boss.ChargeTick | game/boss.py:126-136 | performs `ChargeStep` |
| BossMachine.Boss.DivisionTick | game/boss.py:137-146 | performs `DivisionAttackStep` and returns `DivisionAttackShots` |
| BossMachine.Boss.StateTick | game/boss.py:104-146 | performs `AttackStep` and returns `AttackShots` |
| BossMachine.Boss.MeleeCheck | game/boss.py:148-157 | updates the boss as `MeleeStep` says and the player's hearts and hit timer as `Struck` says |
| BossMachine.Boss.FlashTick | game/boss.py:159-170 | performs `FlashStep` |
| BossMachine.Boss.SpawnDueWaves | game/boss.py:172-198 | performs `WaveStep` and returns `WaveShots` |
| BossMachine.Boss.WaveVolley | game/boss.py:173-189 | returns the due waves and their bullets |
| BossMachine.Boss.StoreQueue | game/boss.py:191-198 | stores the queue left, its flag and its timer |
| BossMachine.Boss.FightTick | game/boss.py:97-198 | performs `Fight`, returns `FightShots` and leaves the player as `FightPlayer` says |
| BossMachine.Boss.EnterIntermission | game/boss.py:83-86 | starts the transition and the gauntlet with a 2 s intermission |
| BossMachine.Boss.MarkThreshold | game/boss.py:81-82 | sets the threshold flag only |
| BossMachine.Boss.WaitIntermission | game/boss.py:90-92 | counts down the intermission only |
| BossMachine.Boss.Update | game/boss.py:61-198 | one call of `update` leaves the boss as `Next` says, returns the bullets `Emitted` says, and leaves the player as `PlayerAfter` says |
| BossMachine.Boss.Engage | game/boss.py:80-198 | the same, past the intro |
| BossMachine.Boss.Proceed | game/boss.py:83-198 | the same, after the threshold check |
| BossMachine.Boss.Transition | game/boss.py:89-95 | the same, for the intermission pause and the gauntlet |

## Left out

- Drawing is not modelled: `Boss.draw`, `Impact.draw`, `Bullet._update_image`'s pixels, the hearts HUD in `game/utils.py` and `game/ui.py`. They only render. The glow rect's size is kept.
- `main.py` is not part of this model beyond the space-bar roll start (`Players.Player.PressRoll`). The event loop, the game states, bullet groups and collisions between bullets and sprites belong to it.
- Floating point becomes exact `real` arithmetic. Sines, cosines, `atan2` and `normalize` are not computed: bullets keep a polar velocity, and the idle drift and the wide spread's aim are inputs.
- Random numbers are inputs, constrained to the ranges Python guarantees (`Draws`, and the parameters of `Effects.ScreenShake.Update` and `Effects.Impact.constructor`).
- The keyboard state becomes four key flags, and the roll step is an input.
- `print` calls are left out.
- The division's pulse animation is not modelled: `corner_pulse_scale`, the pulse colour, `corner_particles` resizing and `spiral_angles`. They only feed drawing. `corner_pulse_timer` is kept and advanced.
- `last_attack`, `attack_repeat_count` and `particle_division_stage` are left out. They are assigned but never read.
- The player's image flicker, alpha and red flash fills are not modelled. The timers that drive them are.
- Lists.RemoveFirst: Python's `list.remove` raises `ValueError` for a missing element; the model leaves the list unchanged. No caller removes a missing element.
- BossMachine.Boss.Update: requires that `start_game` has placed the four corners. Otherwise the division attack would index an empty list in the source.
- BossLogic.FlashColourInRange: on the tick where the flash overruns (more time passes than is left on it) the source computes an out-of-range colour, green below zero; it clamps each channel only when drawing (`game/boss.py:372-376`), and drawing is not modelled. The lemma covers the other ticks.
- BossLogic.Damaged: health is not clamped, as in the source, so it can fall below zero.
- BossLogic.New: the `y` argument is overwritten in the source before it is used, and is ignored here.
- BossLogic.ResetRestoresStart: `reset` leaves the wave queue, the gauntlet direction and switch timer, the intermission delay and the corner lists as they were. The lemma states exactly that, because the source does not reset them.
- BossRuns.RunPicksRounds: the rounds of four are proved for runs that start from a full or an empty pool, such as a new or reset boss. From a part-used pool only the first draws up to the refill are constrained.
- The class stores the boss's fields in seven records, not 36 separate attributes. Each method writes the records it changes, and `Snapshot()` reads them back.
