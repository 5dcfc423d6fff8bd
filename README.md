# GT Legends arena and shell, modelled in Dafny

This project models the core of a two-player browser fighting game. The game has three parts.

- **The arena** (`components/GameCanvas.tsx`). Each animation frame runs one `updateGameLogic`:
  - a death countdown once a fighter is down;
  - otherwise the clock and a power-up spawn every 600 frames;
  - the black-hole pull;
  - the effect manager, which ages and folds the active effects of both fighters;
  - player one's movement, gun and special;
  - the AI's movement, gun and special;
  - the bullet pass, with its hits, shields and peace mode;
  - the power-up pickups.
- **The stat generator** (`services/geminiService.ts`). It hashes the first 100 characters of a portrait with a 32-bit string hash. The hash gives hit points, speed, power and the flavour texts.
- **The shell** (`App.tsx` and `components/UploadSection.tsx`). It holds:
  - the coin economy and the ability shop;
  - the user's overrides of the generated stats;
  - the online host handshake;
  - the screen transitions (reset, rematch);
  - the upload form's image resize, power-up toggles and lock gates.

How each part is modelled:

- **The arena is a class.** `Arena.Game` has the fields of the `gameState` record. Every phase of a frame is a method. Each method's `ensures` ties the new state to a pure function of the old state in module `Frames`. Properties of those functions are proved as lemmas.
- **Loops stay loops.** The backward loops over effects, bullets and black holes are `while` loops that splice in place, as the source does. So is the forward `forEach` over power-ups. Each loop is proved against a recursive specification function (`Tick`/`TallyOf`, `Pass`, `HolePass`, `Sweep`).
- **The shell is also a class.** `Shell.Session` has the React state of `App.tsx` as fields. Its handlers are methods.
- **The generator and the form logic are pure.** They are written as functions and lemmas.

JavaScript semantics are written out where they matter:

- `x || d` fallbacks on numbers and strings;
- ToInt32 wrap-around in `hash << 5` and `hash & hash`;
- `Math.floor` of the reward;
- `findIndex` returning -1;
- the index skip that `splice` inside `forEach` causes.

Five facts come from reading the code:

- **The hash is Java's `String.hashCode`.** Its loop body is `ToInt32(31 * hash + c)` (`StatGen.StepIsJavaRecurrence`).
- **Power takes only the values 5, 7 and 9.** A comment in the source says 5 to 10.
- **The two default portraits give the same stats.** Their first 100 characters agree, so the stats differ only in the default name (`Portraits.DefaultPortraitsTie`).
- **A pickup can hide the next power-up for one frame.** When a power-up is taken, the one after it is neither aged nor collected in that frame (`Pickups.SkipAfterRemoval`). This follows from the `forEach` and its `splice`.
- **The host plays with a stale entrant.** The peer's connection handler is a closure from the render in which the online button was clicked, and in that render the entrant had not been stored yet. So the first hosting of a session reads no entrant, throws inside its `try` and stays on "Syncing Dimensions..." (`Shell.FirstHostingStalls`). After a reset, hosting again uses the previous entrant (`Shell.LaterHostingUsesPrevious`). The model follows the code here.

The shop's descriptions of the abilities (`POWER_OPTIONS`, components/UploadSection.tsx:50-59) promise more than the arena does. The model follows the arena's code:

- LAMBARDAAR's card (line 53) promises a heal of 50 and 1.25x damage. The code adds GIANT for 600 frames and heals nothing. GIANT doubles the radius and multiplies damage by 1.5.
- SINGH's card (line 54) promises 90% damage reduction, 2x damage and regeneration. The code adds TOUGH for 600 frames, which multiplies damage taken by 0.2 and does nothing else.
- The ABHAY, MANAN and GT_MODE cards (lines 55, 56 and 58) describe a gravity well, a curse with shrinking, and rapid triple fire. These abilities have no case of their own and fire the same special ICE bolt as 6FTBADDIE.
- SONI's card (line 59) promises a touch that halves hp and a void beam. The code adds GOLD_MODE for 480 frames, which triples damage.

## Model

| member | source | states |
|---|---|---|
| StatGen.ToInt32 | services/geminiService.ts:8-9 | the result is a signed 32-bit value congruent to the input modulo 2^32 |
| StatGen.Fold | services/geminiService.ts:5-10 | the hash after the loop is always a signed 32-bit value |
| StatGen.HashOf | services/geminiService.ts:4-12 | hashString lies in [0, 2^31], and the empty string hashes to 0 |
| StatGen.StepIsJavaRecurrence | services/geminiService.ts:8-9 | `((h << 5) - h) + c` followed by `h & h` equals ToInt32(31*h + c) for every 32-bit h |
| StatGen.FoldIsJavaHashCode | services/geminiService.ts:4-12 | the loop computes the polynomial hash `sum s[i]*31^(n-1-i)` reduced to 32 bits |
| StatGen.HashString | services/geminiService.ts:4-12 | the imperative loop returns HashOf(s), which is `abs(ToInt32(poly(s)))` and lies in [0, 2^31] |
| StatGen.Prefix100 | services/geminiService.ts:39 | `substring(0, 100)` is a prefix of at most 100 characters, and the whole string when it is shorter |
| StatGen.GenerateStats | services/geminiService.ts:38-55 | hp is an integer in [120, 200], speed in [5, 10], power only 5, 7 or 9; the texts come from their tables; the name is the default and the move is "Signature Move" |
| StatGen.SamePrefixSameStats | services/geminiService.ts:39 | two portraits with the same first 100 characters get identical stats |
| StatGen.AnalyzeFighters | services/geminiService.ts:30-61 | player one's stats are generated from image one under "Player 1", player two's from image two under "Player 2" |
| Portraits.DefaultPortraitsTie | components/UploadSection.tsx:45-47 | the two default avatars yield the same stats apart from the name |
| Combat.Side.Other | components/GameCanvas.tsx:804 | the opponent of a side is a different side |
| Combat.Duel.With | components/GameCanvas.tsx:83-110 | replacing one fighter leaves the other fighter and the screen shake unchanged |
| Combat.ClampTo | components/GameCanvas.tsx:646-647 | `max(lo, min(hi, v))` is at least lo, at most hi when lo <= hi, and v itself when v is in range |
| Combat.CountAppend | components/GameCanvas.tsx:577-608 | the number of effects of a kind in `a + b` is the sum of the counts |
| EffectManager.Tick | components/GameCanvas.tsx:577-583 | ageing never lengthens the list, and every survivor has time left |
| EffectManager.TickAppend | components/GameCanvas.tsx:577-583 | ageing works entry by entry and keeps the survivors' order |
| EffectManager.TickCount | components/GameCanvas.tsx:579-583 | after ageing, the count of a kind is the number of its entries that had more than one frame left |
| EffectManager.LastingAtMost | components/GameCanvas.tsx:579-583 | the entries of a kind that outlive a frame are at most all entries of that kind |
| EffectManager.TickNeverAdds | components/GameCanvas.tsx:577-583 | ageing never raises the count of any kind |
| EffectManager.TickNoneExpire | components/GameCanvas.tsx:577-583 | when no entry is on its last frame, every entry stays in place with one frame less |
| EffectManager.TickAllExpire | components/GameCanvas.tsx:577-583 | when every entry is on its last frame, the list empties |
| EffectManager.HealCapped | components/GameCanvas.tsx:596-601 | n LOVELY heals of 2 never pass maxHp and equal min(maxHp, hp + 2n) |
| EffectManager.GiantDoublesOnce | components/GameCanvas.tsx:589-592 | a second GIANT does not grow the radius again: it stays 2 × baseRadius |
| EffectManager.GiantReverts | components/GameCanvas.tsx:577-592 | once every GIANT is on its last frame, the next radius is baseRadius again |
| EffectManager.LastingNone | components/GameCanvas.tsx:579-583 | no entry of a kind survives when all of them are on their last frame |
| EffectManager.FreezeOnce | components/GameCanvas.tsx:586-610 | a second FREEZE does not slow further: the 0.2 factor applies once |
| EffectManager.MultSteps | components/GameCanvas.tsx:585-594 | each POWER, GIANT and GOLD_MODE multiplies the damage multiplier by 2, 1.5 and 3 |
| EffectManager.TallyStep | components/GameCanvas.tsx:584-608 | folding one more surviving effect changes each local of the loop exactly as the loop's `if` chain does |
| EffectManager.Absorb | components/GameCanvas.tsx:584-608 | one loop iteration on a live effect yields the tally of the survivors seen so far plus that effect |
| EffectManager.TallyResults | components/GameCanvas.tsx:610-612 | the loop's locals, read back, are the status of the surviving effects and the speed with the freeze factor |
| EffectManager.AgeAt | components/GameCanvas.tsx:578-583 | one step at index i decrements that entry and splices it out exactly when it has expired |
| EffectManager.WalkEffects | components/GameCanvas.tsx:577-609 | the backward loop leaves exactly the aged list, and its locals are the tally of those survivors |
| EffectManager.ManageEffects | components/GameCanvas.tsx:566-616 | effects are aged; speed, radius and multipliers depend only on the base values and the survivors; hp gains the capped LOVELY heal on tenth frames; hitFlash counts down |
| EffectManager.ManagedUnstacked | components/GameCanvas.tsx:566-616 | effect management never stacks a SPEED or POWER effect |
| Projectiles.Resolve | components/GameCanvas.tsx:785-866 | a bullet either leaves play or stays, moved, with the fighters unchanged |
| Projectiles.Pass | components/GameCanvas.tsx:777-867 | the pass never adds bullets |
| Projectiles.ResolveOne | components/GameCanvas.tsx:778-866 | one loop iteration matches the per-bullet specification, including whether the bullet is spliced out |
| Projectiles.UpdateBullets | components/GameCanvas.tsx:776-868 | the backward splicing loop yields the surviving bullets and fighters that Pass specifies |
| Projectiles.PeaceClearsAll | components/GameCanvas.tsx:808-812 | while either fighter is LOVELY, every bullet vanishes and nobody is touched |
| Projectiles.ShieldBlocks | components/GameCanvas.tsx:816-823 | a bullet against a shielded target changes neither fighter nor the shake |
| Projectiles.UnshieldedHit | components/GameCanvas.tsx:816-849 | an unblocked hit removes the bullet, deals dmg × damageTakenMult, sets hitFlash 10, raises the target's charge by 5 and the attacker's by 10 (both capped at 100), appends FREEZE 180 for an ICE special and FREEZE 30 at damage multiplier 3 or more and no other effect, raises the shake by 15 or 2 up to 20, and leaves the attacker's hp and effects alone |
| Projectiles.OwnBulletsHarmless | components/GameCanvas.tsx:804 | a fighter's own bullets never change its hp, effects or hit flash |
| Projectiles.ShieldHoldsAllPass | components/GameCanvas.tsx:820-823 | behind a shield, a whole pass leaves hp, effects and hit flash alone |
| Projectiles.PassKeepsBounds | components/GameCanvas.tsx:828-849 | special charge stays in [0, 100] and the shake in [0, 20] over a pass |
| Projectiles.PassNeverHeals | components/GameCanvas.tsx:825-826 | with non-negative damage and multipliers, no fighter gains hp from the bullets |
| Projectiles.ResolveKeepsPickups | components/GameCanvas.tsx:814-862 | a bullet never changes a fighter's count of SPEED or POWER effects |
| Projectiles.PassKeepsPickups | components/GameCanvas.tsx:777-867 | nor does a whole pass |
| Pickups.FindIndex | components/GameCanvas.tsx:909 | `findIndex` returns -1 exactly when no entry has the kind; otherwise the first such position |
| Pickups.DropFirstCount | components/GameCanvas.tsx:909-910 | removing the first entry of a kind lowers only that kind's count, and by one |
| Pickups.NoneCounted | components/GameCanvas.tsx:909-910 | a kind with no entries has count 0 |
| Pickups.RefreshNotStack | components/GameCanvas.tsx:908-912 | SPEED or POWER refreshes: with at most one such effect before, exactly one after, 480 frames, last in the list; other kinds untouched (the premise holds all game long, see Arena.Game.Animate) |
| Pickups.HealBounded | components/GameCanvas.tsx:904-907 | HEAL raises hp by at most 50 and never past maxHp |
| Pickups.HoleOnOpponent | components/GameCanvas.tsx:887-898 | BLACK_HOLE opens one 300-frame hole, owned by the picker, at the opponent's position, and changes no fighter |
| Pickups.Spawned | components/GameCanvas.tsx:322-338 | nothing spawns when no kind is allowed; otherwise an allowed kind, 100 px clear of every edge, radius 20, life 600 |
| Pickups.Sweep | components/GameCanvas.tsx:754-770 | the sweep never adds power-ups |
| Pickups.Visit | components/GameCanvas.tsx:755-769 | one visit spins and ages the item, gives it to player one first, then player two, and drops it when taken or expired |
| Pickups.SweepAt | components/GameCanvas.tsx:754-770 | after a removal, the item that slides into the visited index is skipped |
| Pickups.Advance | components/GameCanvas.tsx:754-770 | one visit moves the settled prefix on by the visited item or by the skipped one |
| Pickups.SweepPowerUps | components/GameCanvas.tsx:754-770 | the forEach over a list it splices yields exactly the items and fighters Sweep specifies |
| Pickups.SkipAfterRemoval | components/GameCanvas.tsx:754-770 | when the first power-up is taken or expires, the second is left unaged and untaken this frame |
| Pickups.PlayerOneFirst | components/GameCanvas.tsx:757-760 | a power-up both fighters reach goes to player one |
| Pickups.Expires | components/GameCanvas.tsx:766-767 | an untaken power-up on its last frame disappears |
| Pickups.UntouchedAge | components/GameCanvas.tsx:754-770 | with nobody near and life to spare, every power-up is aged in place |
| Pickups.SweepKeepsCharge | components/GameCanvas.tsx:886-913 | pickups never change special charge or the shake |
| Pickups.ApplyUnstacked | components/GameCanvas.tsx:886-913 | a pickup leaves each fighter with at most one SPEED and one POWER effect when it had no more before |
| Pickups.SweepUnstacked | components/GameCanvas.tsx:754-770 | so does a whole sweep |
| BlackHoles.Pull | components/GameCanvas.tsx:533 | the force `1000/(dist+50)` lies in (0, 20] |
| BlackHoles.CloserPullsHarder | components/GameCanvas.tsx:533 | the force strictly decreases with distance |
| BlackHoles.Turn | components/GameCanvas.tsx:522-562 | a hole survives, one frame older, exactly when it had more than one frame left; its owner and the shake are untouched |
| BlackHoles.HolePass | components/GameCanvas.tsx:521-563 | the hole pass never adds holes |
| BlackHoles.Drag | components/GameCanvas.tsx:526-547 | the loop body pulls the target beyond 10 px and burns it for 2 in the 40 px core on tenth frames, as Dragged states |
| BlackHoles.UpdateHoles | components/GameCanvas.tsx:521-563 | the backward splicing loop yields the holes and fighters HolePass specifies |
| BlackHoles.OpenerUntouched | components/GameCanvas.tsx:526 | a hole never touches the fighter who opened it |
| BlackHoles.SurvivorsAged | components/GameCanvas.tsx:522-562 | every surviving hole is an earlier hole one frame older, with life left |
| BlackHoles.AllClose | components/GameCanvas.tsx:562 | holes on their last frame all close |
| BlackHoles.CoreBurn | components/GameCanvas.tsx:542-547 | the burn is 2 inside the 40 px core on tenth frames, and nothing otherwise |
| BlackHoles.HolesNeverHeal | components/GameCanvas.tsx:521-563 | over a pass a fighter loses between 0 and 2 hp per hole |
| BlackHoles.HolesKeepCharge | components/GameCanvas.tsx:521-563 | holes leave special charge, the effect lists and the shake alone |
| Specials.ActionOf | components/GameCanvas.tsx:366-438 | exactly ROHANMOB, LAMBARDAAR, SINGH, SONI and PAL have their own case; every other id fires a bolt, FIRE only for GMASTI; PAL alone buffs both |
| Specials.AbilityOf | components/GameCanvas.tsx:360 | the fighter's ability, or GMASTI for player one and 6FTBADDIE for player two when absent |
| Specials.BoltOf | components/GameCanvas.tsx:423-434 | the bolt belongs to the caster, is special, and deals 80 (player one) or 50 × the multiplier |
| Specials.NoChargeNoCast | components/GameCanvas.tsx:353 | below 100 charge, fireSpecial changes nothing |
| Specials.CastSpendsCharge | components/GameCanvas.tsx:355 | a cast sets the caster's charge to 0 and leaves the other's alone |
| Specials.PalLovesBoth | components/GameCanvas.tsx:391-397 | PAL adds LOVELY for 600 frames to both fighters and fires nothing |
| Specials.SelfBuffOnly | components/GameCanvas.tsx:367-389 | the four self buffs go to the caster only: SHIELD 300, GIANT 600, TOUGH 600, GOLD_MODE 480 |
| Specials.OtherIdsFire | components/GameCanvas.tsx:400-437 | every other id appends one special bolt (FIRE iff GMASTI, ICE otherwise), shakes to 20 and adds no effect |
| Specials.CastKeepsPickups | components/GameCanvas.tsx:366-438 | no special adds or removes a SPEED or POWER pickup effect |
| Frames.Initial | components/GameCanvas.tsx:83-123 | both fighters start at rest at full hp equal to their stats, with no charge; base speeds 3 + 0.3 speed and 2 + 0.2 speed (speed 5 when the stat is 0), so a speed of 5 gives player one 4.5; the clock and death timer are 0 |
| Frames.WinnerOf | components/GameCanvas.tsx:506 | player one if alive, else player two if alive, and a draw exactly when both are down |
| Frames.KeyAxis | components/GameCanvas.tsx:619-623 | each axis of the key direction is -1, 0 or 1 |
| Frames.HeadingUnit | components/GameCanvas.tsx:619-631 | with an exact square root, each component of the normalised key direction lies in [-1, 1] |
| Frames.SteeredBounded | components/GameCanvas.tsx:633-647 | a movement step keeps the velocity within 17/15 of the speed, the fixed point of a fifth of the speed damped by 0.85, and leaves the speed alone |
| Frames.HeldKeysBounded | components/GameCanvas.tsx:618-647 | from a bounded start, holding the same keys for any number of frames keeps the velocity within 17/15 of the speed |
| Frames.GunCadence | components/GameCanvas.tsx:650-681 | at most one shot a frame, fired exactly on Space with the cooldown at most 1; a shot is player one's plain bullet and rests the gun 15 - min(10, speed) frames, at least 5; otherwise the cooldown counts down; nothing else about player one changes |
| Frames.Ring | components/GameCanvas.tsx:731-743 | the ring has n shots, the i-th at angle i/8 of a turn |
| Frames.DownedFreezesPlay | components/GameCanvas.tsx:487-513 | while a fighter is down, only the death timer, the ended flag and the results change |
| Frames.InitialSettled | components/GameCanvas.tsx:118-120 | the initial state satisfies the death bookkeeping invariant |
| Frames.SpecialBounded | components/GameCanvas.tsx:352-439 | a special keeps charges in [0, 100] and the shake in [0, 20] |
| Frames.PreludeBounded | components/GameCanvas.tsx:515-616 | clock, spawn, holes and effects keep those bounds |
| Frames.PlayerPhaseBounded | components/GameCanvas.tsx:618-686 | player one's phases keep those bounds |
| Frames.BossPhaseBounded | components/GameCanvas.tsx:688-748 | the AI's phases keep those bounds |
| Frames.ResolutionBounded | components/GameCanvas.tsx:751-770 | bullets and pickups keep those bounds |
| Frames.FrameBounded | components/GameCanvas.tsx:485-774 | every frame keeps special charge in [0, 100] and the shake in [0, 20] |
| Frames.PreludeNoStacking | components/GameCanvas.tsx:515-616 | clock, spawn, holes and effects never stack a SPEED or POWER effect |
| Frames.SpecialNoStacking | components/GameCanvas.tsx:352-439 | nor does a special |
| Frames.PlayerPhaseNoStacking | components/GameCanvas.tsx:618-686 | player one's phases never stack a SPEED or POWER effect |
| Frames.BossPhaseNoStacking | components/GameCanvas.tsx:688-748 | nor do the AI's phases |
| Frames.ResolutionNoStacking | components/GameCanvas.tsx:751-770 | nor do bullets and pickups |
| Frames.FrameNoStacking | components/GameCanvas.tsx:485-774 | every frame keeps each fighter at one SPEED and one POWER effect at most |
| Frames.AnimateSettled | components/GameCanvas.tsx:454-460 | a frame let through by animate keeps the death bookkeeping invariant |
| Frames.LiveFrameBookkeeping | components/GameCanvas.tsx:515 | a live frame advances the clock by one and leaves the death bookkeeping alone |
| Frames.Countdown | components/GameCanvas.tsx:487-513 | from the first downed frame, the game ends after 90 frames, reports its result once with the winner rule, and then stays put |
| Frames.CountingDown | components/GameCanvas.tsx:488-512 | from any timer value between 2 and 91 the timer climbs to 91 and the result is reported only past 90 |
| Frames.PausedHolds | components/GameCanvas.tsx:456-457 | a paused game never changes |
| Arena.Special | components/GameCanvas.tsx:352-439 | the switch body yields the fighters and bullets of Cast for the fighter's ability and aim |
| Arena.Aim | components/GameCanvas.tsx:405-421 | the bolt aims at the pointer in MANUAL mode for player one, with the `\|\| 0` and `\|\| 1` fallbacks, and at the opponent otherwise |
| Arena.Direction | components/GameCanvas.tsx:619-631 | the key direction, scaled to unit length when it is not zero |
| Arena.Steer | components/GameCanvas.tsx:633-647 | player one accelerates by speed × 0.2, damps by 0.85, moves and is clamped to the arena, as Steered specifies (whose velocity bound is Frames.SteeredBounded) |
| Arena.Shoot | components/GameCanvas.tsx:650-681 | player one's gun counts down and fires at most one shot, as Gun specifies |
| Arena.Chase | components/GameCanvas.tsx:689-709 | the AI closes in beyond 350 px, weaves otherwise, damps by 0.9 and is clamped |
| Arena.BossShoot | components/GameCanvas.tsx:712-746 | the AI fires one aimed shot or the ring of eight, with its cooldowns, as BossGun specifies |
| Arena.Game.constructor | components/GameCanvas.tsx:79-123 | the initial game state for the props, unpaused, satisfying the invariant (death bookkeeping, charge and shake bounds, at most one SPEED and one POWER effect per fighter) |
| Arena.Game.TogglePause | components/GameCanvas.tsx:237-242 | the pause flips unless the game has ended; the state is untouched |
| Arena.Game.SpawnPowerUp | components/GameCanvas.tsx:322-338 | the state after spawnPowerUp with the given random draws |
| Arena.Game.FireSpecial | components/GameCanvas.tsx:352-439 | the state after fireSpecial for the given side |
| Arena.Game.MovePlayer | components/GameCanvas.tsx:618-647 | the state after player one's movement |
| Arena.Game.FirePlayer | components/GameCanvas.tsx:649-681 | the state after player one's gun |
| Arena.Game.SteerBoss | components/GameCanvas.tsx:688-709 | the state after the AI's movement |
| Arena.Game.FireBoss | components/GameCanvas.tsx:711-746 | the state after the AI's gun |
| Arena.Game.CountDown | components/GameCanvas.tsx:487-513 | the state after one downed frame |
| Arena.Game.AdvanceClock | components/GameCanvas.tsx:515-516 | the clock ticks and the shake decays by a tenth |
| Arena.Game.PullHoles | components/GameCanvas.tsx:521-563 | the state after the black-hole loop |
| Arena.Game.ManageBoth | components/GameCanvas.tsx:615-616 | both fighters after the effect manager, and the statuses it reports |
| Arena.Game.StartFrame | components/GameCanvas.tsx:515-616 | the state and statuses after the clock, spawn, holes and effects |
| Arena.Game.PlayerTurn | components/GameCanvas.tsx:618-686 | the state after player one's phases |
| Arena.Game.BossTurn | components/GameCanvas.tsx:688-748 | the state after the AI's phases |
| Arena.Game.MoveBullets | components/GameCanvas.tsx:776-868 | the state after updateBullets |
| Arena.Game.CollectPowerUps | components/GameCanvas.tsx:754-770 | the state after the power-up sweep |
| Arena.Game.UpdateGameLogic | components/GameCanvas.tsx:485-774 | the state after one updateGameLogic, which keeps the bounds (FrameBounded) |
| Arena.Game.Animate | components/GameCanvas.tsx:441-483 | nothing changes once ended or while paused, otherwise one frame; the invariant, no stacked SPEED or POWER effect included, is kept |
| UploadForm.ResizeDims | components/UploadSection.tsx:86-101 | the longer side is brought to 800 and the other side scaled by the same factor, a square counting as portrait; small images are unchanged; the aspect ratio is kept and both sides end in (0, 800] |
| UploadForm.Toggle | components/UploadSection.tsx:164-169 | toggling flips membership of that kind and of no other |
| UploadForm.TogglePowerUp | components/UploadSection.tsx:164-169 | only the selected power-ups change, by the toggle |
| UploadForm.Find | components/UploadSection.tsx:125 | `find` succeeds exactly when some entry has the id, and returns an entry with that id |
| UploadForm.ShopTable | components/UploadSection.tsx:49-60 | every ability is on sale exactly once, GMASTI is free, and prices strictly increase down the list |
| UploadForm.SelectOption | components/UploadSection.tsx:270 | clicking a locked card changes nothing; an unlocked one sets the ability and its name, and nothing else |
| UploadForm.ImageOr | components/UploadSection.tsx:130-131 | an uploaded non-empty image wins, a missing or empty one gives the fallback, and the result is never empty while the fallback is not |
| UploadForm.NeverFaceless | components/UploadSection.tsx:120-121 | the face checks can never fire, because both defaults are non-empty |
| UploadForm.Submit | components/UploadSection.tsx:119-145 | refused with the lock message exactly when player one's ability is locked; otherwise the images are ImageOr of the uploads and the default avatars, and the ids, hp, power-ups, names, moves, aim mode, bullet settings and difficulty are passed on |
| UploadForm.Multiplayer | components/UploadSection.tsx:147-162 | the same lock gate and message; the entrant carries ImageOr of player one's upload and avatar, player one's ability and move, the name or "Player 1", and the bullet settings |
| UploadForm.GateIgnoresP2 | components/UploadSection.tsx:124-152 | the lock gates look only at player one's ability |
| UploadForm.JoinedKeepsEntrantName | components/UploadSection.tsx:156 | an entrant from the multiplayer button always keeps its own name at the host |
| Shell.Buy | App.tsx:103-110 | a purchase succeeds exactly when coins cover the cost and the ability is not yet owned; it then subtracts the cost and appends the ability, and otherwise changes nothing |
| Shell.BuyKeepsSolvent | App.tsx:103-110 | a purchase never causes debt or a double unlock, and never loses an ability |
| Shell.SpreeKeepsSolvent | App.tsx:103-110 | any run of purchases keeps the wallet solvent and the owned abilities growing |
| Shell.Reward | App.tsx:175-188 | floor(100 × difficulty) for a player-one win and 25 otherwise (a draw included); never negative at non-negative difficulty |
| Shell.WinPaysMore | App.tsx:181-185 | from difficulty 0.26 up, a win pays more than the consolation prize of 25 |
| Shell.Override | App.tsx:140-147 | the name and move are overridden only by non-empty entries, hp always; nothing else changes |
| Shell.EmptyOverrideOnlySetsHp | App.tsx:140-147 | empty entries keep the generated name and move |
| Shell.OverrideIdempotent | App.tsx:140-147 | applying the same entries twice equals applying them once |
| Shell.Joined | App.tsx:276-283 | at the host, the name and move fall back to the generated ones when empty, and hp is 200 |
| Shell.LineupFacts | App.tsx:137-161 | both fighters start at the chosen hp with the chosen abilities and portraits; an empty name falls back to "Player 1"/"Player 2" and an empty move to "Signature Move" |
| Shell.Roster | App.tsx:140-161 | the in-place assignments build the fighters Lineup specifies |
| Shell.PairingFacts | App.tsx:274-286 | online, both fighters start at 200 hp, carry the entrants' abilities, and an empty name falls back to the generated one |
| Shell.Match | App.tsx:276-286 | the host's in-place assignments build the fighters Pairing specifies |
| Shell.Session.constructor | App.tsx:29-64 | the upload screen with the initial form, no fighters, result, online session, entrant or peer, game id 0 and the loading text "Summoning the spirits..."; coins and abilities restored, 100 and GMASTI when nothing is saved |
| Shell.Session.BuyAbility | App.tsx:103-110 | the wallet and the result are those of Buy; solvency is kept and nothing else changes |
| Shell.Session.AttemptBuy | components/UploadSection.tsx:171-177 | the wallet is that of Buy; a failed purchase sets "Not enough coins!", a successful one clears the error; nothing else changes |
| Shell.Session.ImagesReady | App.tsx:116-163 | the versus screen with the fighters of Lineup, the loading text set, and the wallet and form untouched |
| Shell.Session.StartGame | App.tsx:171-173 | the playing screen, with nothing else changed |
| Shell.Session.GameOver | App.tsx:175-188 | the result is recorded and the reward is added once; coins never drop; nothing else changes |
| Shell.Session.Reset | App.tsx:190-202 | back to the form with the fighters, result, game id and online session cleared and the peer destroyed; the form, wallet, entrant and loading text kept |
| Shell.Session.Rematch | App.tsx:204-208 | a new game id, no result, the playing screen, and the same fighters; nothing else changes |
| Shell.Session.MultiplayerRequest | App.tsx:212-238 | the entrant is kept and the lobby opens; a peer is opened only when none is, and its handler holds the entrant from before this request; nothing else changes |
| Shell.Session.ConnectionOpen | App.tsx:251-256 | with an open peer, the online session is recorded as host for a received connection and client for a made one; nothing else changes |
| Shell.Session.HostHandshake | App.tsx:265-299 | without a peer nothing changes; with the entrant its handler captured: the fighters of Pairing, the host's bullet settings at difficulty 1, and the playing screen; with none captured, the screen stays on "Syncing Dimensions..." |
| Shell.FirstHostingStalls | App.tsx:212-299 | the first hosting of a session ends on the loading screen with no fighters, the entrant just submitted notwithstanding |
| Shell.LaterHostingUsesPrevious | App.tsx:190-299 | after a reset, hosting again starts the match with the previous request's entrant as player one |

## Left out

- Rendering, sound, particles, floating texts and the React health and charge mirrors (`setP1Health`, `setP1Special`) are left out. They do not feed back into the simulation.
- The NaN guards (`isNaN(angle)`, `isNaN(b.x)`, `isNaN(speed)`) are left out. The model's numbers are exact reals, so they cannot be NaN.
- Floating point: the model computes positions, speeds and multipliers in exact real arithmetic. It does not model IEEE rounding.
- `Math.sqrt`, `Math.atan2`, `Math.cos`, `Math.sin` and `Math.PI` are an uninterpreted `MathLib` record. The model assumes that a square root is non-negative. Only the movement bounds (Frames.HeadingUnit, Frames.SteeredBounded, Frames.HeldKeysBounded) also require it to be exact (`MathLib.ExactSqrt`). Distance tests are decided on squared distances.
- `Math.random()` draws are inputs in [0, 1). So are the keys and the pointer.
- The per-frame particle and text lists are not part of the state.
- `requestAnimationFrame`, the canvas and its 2D context are left out.
- The keyboard and pointer handlers are left out. Their effect is the `Keys` and `Input` records.
- PeerJS (`hostGame`, `joinGame`, the peer's open and error events, the status texts, and the client side of the handshake) is left out. It is network I/O. Three things are modelled: the peer that initPeer opens, with the entrant its connection handler captures; the connection's open event, which records the online role (App.tsx:251-256); and the host's computation of the match (App.tsx:265-298). No code sends or reads game-state or input messages: they exist only as a type (types.ts:55), and the arena never reads its `multiplayer` prop.
- Shell.Session.MultiplayerRequest: the "PeerJS not loaded" alert path of initPeer (App.tsx:215) is not modelled; the model takes the library as loaded, so a peer always opens.
- localStorage is left out. The Session constructor takes the saved coins and abilities as parameters, and it does not model the saved form.
- The 800 ms delay of analyzeFighters and the `await` are left out. Shell.Session.ImagesReady and Shell.Session.HostHandshake take the resolved stats as a parameter, and LineupFacts/PairingFacts compose them with AnalyzeFighters. The generator cannot throw, so the catch at App.tsx:164-168 is unreachable and not modelled. The catch at App.tsx:299 is reached when the captured host entrant is missing: reading `hostData.imageSrc` throws at App.tsx:274, and the screen stays on "Syncing Dimensions...". That is the case of Shell.Session.HostHandshake where the peer holds no entrant.
- Shell.Session.ImagesReady does not keep the aim mode, power-ups, bullet image, velocity or difficulty arguments. The source reads none of them either.
- FileReader, image decoding and JPEG compression are left out. UploadForm.ResizeDims models only the dimension arithmetic. It does not model the canvas's truncation of `width` and `height` to whole pixels.
- handleUpdateForm and the form's persistence effect (App.tsx:66-101) are left out. The form record is updated directly by the functions that model each change.
- `Array.from(formData.selectedPowerUps)` lists the kinds in insertion order. The form hands on the set, and the arena takes its allowed kinds as a sequence. The order the array gets, and so which kind a given random draw picks, is not modelled.
- The description texts of `POWER_OPTIONS` are left out, because nothing reads them in the logic.
- Portraits.DefaultPortraitsTie, UploadForm.NeverFaceless: the default avatars are the first 180 characters of the source's data URLs. That is more than the 100 the generator reads, and past the first character where the two differ.
- StatGen.HashString treats `charCodeAt` as the Dafny char's code point. This agrees for characters in the Basic Multilingual Plane, which covers data URLs.
- The unreachable `if (!type) return;` in spawnPowerUp (GameCanvas.tsx:327) is not modelled. The index is always in range (Pickups.Spawned).
- The game-over screen displays `100 * difficulty` without the floor (App.tsx:418), while the coins are credited with the floor. The model covers the credit only.
- The forEach skip in the power-up sweep is modelled as written, not corrected.
