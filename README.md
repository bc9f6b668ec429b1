# Shooter demo core, modelled in Dafny

This project models the per-frame game logic of a small browser shooter.
The game is a third-person soldier in a 7 x 7 room, with breakable ceiling
bulbs and crates, voice lines, footsteps and a thunderstorm outside.

The modelled logic comes from five source files:

- the **player controller** (`src/characterController.js`): mouse look,
  gravity and jump, the room walls, footsteps, the fire-rate gate, spread,
  recoil, self-hit filtering, impacts and the capped decal list, the
  animation-name heuristic and per-frame clip selection;
- the **animation controller** (`src/animationController.js`);
- the **input controller** (`src/inputController.js`);
- the **audio controller** (`src/audioController.js`): the sound registry
  and its fallbacks, the do-once flags, the voice-line cooldowns, playback;
- the **lightning timer** and the **breakable props** of `src/scene.js`.

Code that changes fields in place is modelled as Dafny classes:

- `Input.InputController`, `Animation.AnimationController`,
  `Audio.AudioController`, `Scene.Lightning` and
  `Character.CharacterController`;
- each of their methods states its whole new state, field by field and
  through the pure step functions it applies to the old state
  (`Motion.LookStep`, `Motion.VerticalStep`, `Motion.HorizontalStep`,
  `Motion.FootstepStep`, `Character.ShotOf`, `Weapon.PushDecal`, ...);
- the properties are proved about those functions, as lemmas and as the
  class invariant `Character.CharacterController.Valid`.

Pure code (the `find`/`filter` expressions, the spread table, the key table)
is modelled as functions.

Modules:

| module | file |
|---|---|
| `Wrappers` | `wrappers.dfy` |
| `World` | `world.dfy` |
| `Text` | `text.dfy` |
| `Input` | `input.dfy` |
| `Animation` | `animation.dfy` |
| `AnimSelect` | `animselect.dfy` |
| `Audio` | `audio.dfy` |
| `Scene` | `scene.dfy` |
| `Motion` | `motion.dfy` |
| `Weapon` | `weapon.dfy` |
| `Character` | `character.dfy` |

## The wall check

`src/characterController.js:260` assigns to `hitWall`, which is never
declared. The file is an ES module and so runs in strict mode. The
assignment therefore throws a `ReferenceError` whenever the candidate
position leaves the room. The model follows what the code does, not the
clamp written below the check:

- **The frame is aborted.** `Motion.HorizontalStep` returns `Blocked`, and
  `Character.CharacterController.Update` returns `completed == false`.
- **Already changed:** the view has turned, and y, the vertical velocity and
  `isGrounded` have been updated.
- **Kept as they were:** x and z.
- **Skipped:**
  - the door line (`playDoorLocked` is never reached, so `doorTimer` never
    changes);
  - the photo-corner laugh;
  - the footsteps;
  - the weapon;
  - the camera;
  - `resetDeltas`, so the mouse deltas carry over to the next frame.

In `src/main.js`, the same exception also skips `updateScene` and the
render of that frame. Those calls sit after `characterController.update`,
and `requestAnimationFrame(animate)` has already been queued.

The clamp the authors wrote is kept for comparison as `Motion.ClampedStep`.
`Motion.WallReadings` shows the two readings agree inside the room and
differ at a wall. For example, walking east from x = 3.4 for 0.1 s:

- the code as written leaves the player at 3.4 and speaks no line;
- the clamp would put the player at 3.5 and ask for the door line.

## Free fall and the floor

Without a jump one might expect the vertical velocity after N frames to be
−gravity·t, t the elapsed time. The code resets the velocity to 0 on every
frame that ends on the floor (`src/characterController.js:242-246`), so that
law holds only while the player stays in the air:

- `Motion.FreeFall` proves the law under the hypothesis that every frame
  stays above the floor;
- `Motion.FloorStopsFall` shows a player standing on the floor keeps
  velocity 0 for a frame of any length, although the velocity gravity
  produced in that frame is −gravity·dt.

## Model

| member | source | states |
|---|---|---|
| `Text.LowerChar` | src/animationController.js:17 | ASCII capitals become the small letter 32 code points up; every other character is kept; the result is never a capital |
| `Text.Lower` | src/animationController.js:17 | lower-casing keeps the length and lower-cases each character |
| `Text.LowerIdempotent` | src/animationController.js:25 | lower-casing an already lower-cased name changes nothing, so a lookup of a lower-cased clip name finds its own key |
| `Text.Contains` | src/characterController.js:67-69 | `includes` holds exactly when the word occurs at some position of the name |
| `Input.Keys.Set` | src/inputController.js:43-49 | setting one key changes that key and no other |
| `Input.KeyForCode` | src/inputController.js:42-50 | a recognised code names its key; an unrecognised code is none of the seven codes |
| `Input.CodeRoundTrip` | src/inputController.js:42-50 | the code table is a bijection between tracked keys and their codes |
| `Input.KeyEvent` | src/inputController.js:41-63 | a key event sets exactly the key with that code to the held state; any other code changes nothing |
| `Input.KeyEventCases` | src/inputController.js:42-59 | the event, case by case, as the `switch` of the two handlers |
| `Input.PressRelease` | src/inputController.js:41-63 | keydown then keyup of one code leaves that key released and all others as before |
| `Input.ButtonEvent` | src/inputController.js:65-73 | button 0 drives the left button, button 2 the right; other buttons and the deltas are untouched |
| `Input.MotionEvent` | src/inputController.js:75-80 | while locked, the deltas are replaced by the event's values (missing reads as 0); unlocked, nothing changes |
| `Input.MotionOverwrites` | src/inputController.js:75-80 | two motion events in one frame do not accumulate: only the second counts |
| `Input.InputController.constructor` | src/inputController.js:2-22 | all keys and buttons released, deltas 0, pointer unlocked |
| `Input.InputController.OnKeyDown` | src/inputController.js:41-51 | the keys become `KeyEvent(keys, code, true)`; the mouse is unchanged |
| `Input.InputController.OnKeyUp` | src/inputController.js:53-63 | the keys become `KeyEvent(keys, code, false)`; the mouse is unchanged |
| `Input.InputController.OnMouseDown` | src/inputController.js:65-68 | the mouse becomes `ButtonEvent(mouse, button, true)`; the keys are unchanged |
| `Input.InputController.OnMouseUp` | src/inputController.js:70-73 | the mouse becomes `ButtonEvent(mouse, button, false)`; the keys are unchanged |
| `Input.InputController.OnMouseMove` | src/inputController.js:75-80 | the mouse becomes `MotionEvent(mouse, x, y)`; the keys are unchanged |
| `Input.InputController.OnPointerLockChange` | src/inputController.js:36-38 | `locked` becomes whether the body holds the lock; nothing else changes |
| `Input.InputController.ResetDeltas` | src/inputController.js:94-97 | both deltas become 0; keys, buttons and lock are unchanged |
| `Animation.ActionsFor` | src/animationController.js:15-18 | every stored action is the index of a clip |
| `Animation.ActionsForKeys` | src/animationController.js:15-18 | the keys are exactly the lower-cased clip names, each holding the last clip with that name |
| `Animation.Lookup` | src/animationController.js:23-26 | an action is found exactly when there is a mixer and the lower-cased name is a key, and it is one of the stored actions |
| `Animation.LookupIgnoresCase` | src/animationController.js:25 | looking up the lower-cased name finds the same action as the name itself |
| `Animation.SwitchCalls` | src/animationController.js:29-33 | on a switch, the previous action (if any) is faded out over 0.2 s first, and is the only one faded out; then only the new one is reset, faded in over 0.2 s and started, in that order |
| `Animation.AnimationController.constructor` | src/animationController.js:4-20 | there is a mixer exactly when there are clips; `actions` is `ActionsFor(clips)`, so it is empty without clips; nothing is active |
| `Animation.AnimationController.Play` | src/animationController.js:22-35 | without a mixer, for an unknown name, or for the already active action, nothing happens; otherwise the named action becomes active with exactly the switch calls |
| `AnimSelect.LowerAll` | src/characterController.js:64 | the name list, each lower-cased |
| `AnimSelect.FirstMentioning` | src/characterController.js:67-69 | a found name is one of the names and contains one of the words; nothing found means no name contains one |
| `AnimSelect.OrElse` | src/characterController.js:67-75 | JavaScript's `\|\|`: the first operand when it is a non-empty name, otherwise the second |
| `AnimSelect.Either` | src/characterController.js:67-76 | the reference reading of the fallback: the first operand whenever it is defined, otherwise the second |
| `AnimSelect.BuildAnimMap` | src/characterController.js:64-76 | idle is undefined exactly when there are no clips, and then walk and aim are undefined too |
| `AnimSelect.FirstMentioningIsFirst` | src/characterController.js:67-69 | `find` returns nothing exactly when no name contains a word, else a matching name with no match before it |
| `AnimSelect.FoundIsTruthy` | src/characterController.js:67-76 | a found name is never the empty string, so `\|\|` falls back exactly when `find` found nothing |
| `AnimSelect.AnimMapRoles` | src/characterController.js:64-76 | idle is the first name containing "idle", else the first name; walk the first containing "walk" or "run", else idle; aim the first containing "aim", else idle; all undefined exactly without clips |
| `AnimSelect.RolesAreClipNames` | src/characterController.js:64-76 | every defined role is one of the lower-cased clip names |
| `AnimSelect.RolesArePlayable` | src/characterController.js:64-78 | every defined role finds an action in the animation controller |
| `AnimSelect.MapFitsController` | src/characterController.js:61-78 | the map and the controller fit: roles are defined exactly when there is a mixer, and each names an action |
| `AnimSelect.ChooseClip` | src/characterController.js:157-163 | aim while the right button is held, else walk while W, A, S or D is held, else idle |
| `Audio.LoadedSounds` | src/audioController.js:13-25 | the registry holds gunshot, walk, reload and thunder; both samples are decoded only if both fetches succeed, otherwise both are the procedural fallbacks |
| `Audio.LoadOverlays` | src/audioController.js:13-25 | the four assignments of `load`, one after the other, overlay the registry with `LoadedSounds` |
| `Audio.Accepts` | src/audioController.js:82-93 | a voice line passes its gate exactly when its timer is unset (0) or the cooldown has passed since it |
| `Audio.Sounded` | src/audioController.js:185-203 | `play` starts one source for a registered name and none otherwise, with that name's buffer, a rate in [0.9, 1.1), and the low-pass filter exactly for thunder |
| `Audio.Said` | src/audioController.js:104-124 | `speak` queues one utterance exactly when speech synthesis exists, with the text, pitch, rate and voice preference given and a caption clear after length·100 + 1000 ms |
| `Audio.Spoken` | src/audioController.js:81-83 | every accepted voice-line time is one of the requested times, and there are no more of them than requests |
| `Audio.SpokenSpaced` | src/audioController.js:80-99 | accepted lines are at least a cooldown apart, and the first at least a cooldown after the previous one (the clock never reading exactly 0) |
| `Audio.PlaybackRate` | src/audioController.js:201 | the playback rate lies in [0.9, 1.1) |
| `Audio.ThunderDelayMs` | src/audioController.js:29 | the thunder follows a strike after 200 to 700 ms |
| `Audio.CaptionClearMs` | src/audioController.js:122-124 | the caption clears after length·100 + 1000 ms |
| `Audio.AudioController.constructor` | src/audioController.js:2-9 | an empty registry, no flag set, both timers unset |
| `Audio.AudioController.Load` | src/audioController.js:11-31 | the registry gains `LoadedSounds(...)`, the strike listener is installed, nothing else changes |
| `Audio.AudioController.StartAmbience` | src/audioController.js:33-35 | the drone is built and started at most once over the object's lifetime |
| `Audio.AudioController.Speak` | src/audioController.js:101-126 | the caption shows the text; with speech synthesis one utterance is queued and the caption clears after `CaptionClearMs` |
| `Audio.AudioController.PlayIntro` | src/audioController.js:72-78 | the welcome line is spoken on the first call only |
| `Audio.AudioController.PlayDoorLocked` | src/audioController.js:80-89 | the door line is accepted only if never spoken or 5000 ms have passed; a rejected call changes nothing, including `doorTimer` |
| `Audio.AudioController.PlayLaugh` | src/audioController.js:91-99 | the same rule with a 10000 ms cooldown on `laughTimer` |
| `Audio.AudioController.Play` | src/audioController.js:180-205 | a source is started only for a registered name, at a rate in [0.9, 1.1), low-passed only for thunder |
| `Scene.LightningStep` | src/scene.js:154-174 | flashing: the flash runs down and the idle timer is kept, no strike; idle: light off, timer runs down; exactly one strike when it reaches 0, with a 0.1–0.3 s flash and the next one 3–8 s away |
| `Scene.NoStrikeBeforeTimer` | src/scene.js:160-172 | no strike is dispatched before the idle timer's seconds have elapsed, in either phase |
| `Scene.Lightning.constructor` | src/scene.js:121-123 | both timers start at 0 |
| `Scene.Lightning.Update` | src/scene.js:154-174 | the module state becomes `LightningStep(...)`, and the strike flag is its strike |
| `Scene.AddBreakables` | src/scene.js:62-113 | every bulb is breakable, typed light and linked to its own point light at the same place; every crate is breakable and typed crate, at the listed positions |
| `Motion.Clamp` | src/characterController.js:207 | the clamped value lies in the range and is the input when already inside |
| `Motion.LookStep` | src/characterController.js:197-208 | the yaw turns by the scaled delta; the pitch is clamped to [−π/2+0.1, π/2−0.1] and unchanged in between |
| `Motion.AimTurnsSlower` | src/characterController.js:198-203 | aiming turns exactly 4 times more slowly (0.0005 against 0.002) |
| `Motion.Sensitivity` | src/characterController.js:198-201 | the turn rate is positive: 0.002 from the hip, a quarter of that while aiming |
| `Motion.LaunchVelocity` | src/characterController.js:231-237 | a held jump on the ground replaces the velocity by 8; in the air the velocity becomes vy − gravity·dt whatever the jump key; without a jump it never increases for dt ≥ 0 |
| `Motion.VerticalStep` | src/characterController.js:227-248 | y ≥ 0; grounded exactly when the integrated y was ≤ 0, and then y = 0 and velocity 0; otherwise y and the velocity are the integrated ones |
| `Motion.JumpNeedsGround` | src/characterController.js:234-237 | in the air the jump key changes nothing; from the ground it launches at 8 |
| `Motion.FreeFall` | src/characterController.js:231-248 | while every frame stays above the floor, the velocity drops by gravity times the elapsed time |
| `Motion.FloorStopsFall` | src/characterController.js:231-246 | for every frame length dt ≥ 0, a player standing on the floor stays there with velocity 0, although gravity gave −gravity·dt, which is non-zero for dt > 0 |
| `Motion.MoveDir` | src/characterController.js:213-225 | no move key (or only cancelling keys) gives the zero direction |
| `Motion.MoveDirAxes` | src/characterController.js:213-223 | along one axis the direction is forward (0, 0, −1) or right (1, 0, 0) turned by the yaw, negated for S and A |
| `Motion.MoveDirShort` | src/characterController.js:213-225 | for a true sine/cosine the direction has length at most 1 |
| `Motion.HorizontalStep` | src/characterController.js:252-274 | blocked exactly when the candidate leaves the room; otherwise the player moves to the candidate, inside the room, and the laugh is asked for exactly in the photo corner |
| `Motion.StrideWithinReach` | src/characterController.js:252 | one walking frame moves at most 3·dt |
| `Motion.ClampedStep` | src/characterController.js:258-274 | the comparison reading: the clamped position is in the room, and the door is asked for exactly when the candidate leaves it |
| `Motion.WallReadings` | src/characterController.js:258-274 | the code and the clamp agree inside the room and differ at a wall (3.4 → 3.7 counterexample) |
| `Motion.FootstepStep` | src/characterController.js:277-285 | moving on the ground, the timer drops by dt and one step sounds when it reaches ≤ 0, resetting it to 0.5; otherwise it becomes 0 |
| `Motion.StepCadence` | src/characterController.js:277-285 | no step sounds before the timer's seconds of walking have elapsed |
| `Weapon.Ready` | src/characterController.js:300 | the gate is open exactly when more than 0.15 s have passed since the last shot |
| `Weapon.Shots` | src/characterController.js:298-304 | the shots fired are among the trigger frames |
| `Weapon.ShotsSpaced` | src/characterController.js:298-304 | consecutive shots are more than 0.15 s apart, and the first more than 0.15 s after the last shot |
| `Weapon.OneShotPerWindow` | src/characterController.js:300 | two trigger frames within 0.15 s fire at most once |
| `Weapon.Spread` | src/characterController.js:315-317 | the body is the source's table (0.05 from the hip or 0.005 aiming, plus 0.05 moving); the contract bounds it within [0.005, 0.1], below 0.06 when aiming and at least 0.055 when moving |
| `Weapon.Offset` | src/characterController.js:327-328 | for a roll in [0, 1) an offset is never more than half a non-negative spread either way, and 0 for the roll 1/2 |
| `Weapon.AimingTightens` | src/characterController.js:315-328 | each offset is at most half the spread; for the same roll and moving state, aiming gives a strictly smaller offset (unless the roll is exactly 1/2) |
| `Weapon.Lerp` | src/characterController.js:294-295 | `lerp` gives its first end at t = 0 and its second at t = 1 |
| `Weapon.Decay` | src/characterController.js:294-295 | for 0 ≤ t ≤ 1 one frame of recovery neither grows a recoil component nor changes its sign |
| `Weapon.DecayTowardZero` | src/characterController.js:294-295 | for a frame with 0 ≤ t ≤ 1 the recoil moves toward 0 without changing sign; for t > 2 it grows instead |
| `Weapon.Kick` | src/characterController.js:320-321 | one shot adds a sideways jitter within ±0.05 and an upward kick of 0.05 to 0.07 |
| `Weapon.WalksToGroup` | src/characterController.js:340-345 | the parent walk reports the player's own model exactly when the group is in the hit's ancestry |
| `Weapon.ValidHits` | src/characterController.js:339-346 | the filtered hits are exactly the hits that are not the player's own |
| `Weapon.FirstValidHit` | src/characterController.js:339-349 | the first valid hit is preceded only by the player's own hits |
| `Weapon.ResolveShot` | src/characterController.js:334-352 | no hit object exactly when every hit is the player's own, and then the far point; otherwise the first non-own hit, with its face normal or (0, 1, 0) |
| `Weapon.ImpactOf` | src/characterController.js:369-404 | no hit, no effect; a mark (sparks and a decal) exactly when the struck object is not breakable, at the hit point along its normal; breakable: a light break (with its linked light) or a crate break by its type, both at the hit point, and for any other type only `BreakOther`, which removes nothing and leaves no decal |
| `Weapon.DecalPlacement` | src/characterController.js:369-391 | a decal along the normal for a mark, facing down for a broken bulb, none otherwise |
| `Weapon.Removes` | src/characterController.js:378-404 | a broken bulb removes exactly itself and its linked light (if it has one); a crate exactly itself; no other impact removes anything |
| `Weapon.NewDecal` | src/characterController.js:523-534 | a decal at the point along the normal, of size in [0.15, 0.25) and spin in [0, 2π) |
| `Weapon.PushDecal` | src/characterController.js:537-544 | under 50 the decal is appended; at 50 the oldest is dropped and the rest keep their order; never more than 50 |
| `Weapon.Evicted` | src/characterController.js:540-541 | a decal is evicted exactly when the list was full, and it is the oldest |
| `Weapon.RingKeepsNewest` | src/characterController.js:537-544 | after any number of shots the list is exactly the 50 newest decals, oldest first |
| `Character.ShotOf` | src/characterController.js:311-352 | each spread offset is at most half the spread of the stance; the aim is the first hit past the player's own model (else the far point) and the impact is the aim's |
| `Character.StartController` | src/characterController.js:61-78 | a fresh controller over the clips: a mixer exactly when there are clips, the actions `ActionsFor(clips)`, the idle role's action active when there is one, and the action calls exactly those of that one switch (`StartedWith`) |
| `Character.CharacterController.constructor` | src/characterController.js:7-39 | the player at the origin, grounded, looking along −z, with no recoil, no decals and no animation; the new audio controller has the given speech support, an empty registry, no ambience, drone or intro, both timers unset, no caption, no utterances or playbacks and no strike listener |
| `Character.CharacterController.Load` | src/characterController.js:41-127 | the registry gains `LoadedSounds(...)` and the strike listener, and the other audio fields are unchanged; once the soldier is in, the anim map is `BuildAnimMap(clips)` and the controller is `StartedWith(clips, idle)`: mixer, actions, the idle action active and its switch calls; the spine is known only when the whole `try` succeeds; the player's position, view, velocity, timers and recoils are unchanged |
| `Character.CharacterController.LoadModels` | src/characterController.js:46-124 | the model part of `load`, with the placeholder on failure; once the soldier is in, the map is `BuildAnimMap(clips)` and the controller is `StartedWith(clips, idle)`; every field but the animation ones and `hasSpine` is unchanged |
| `Character.CharacterController.AttachSoldier` | src/characterController.js:61-78 | the controller and the map are set together; the mixer, the actions `ActionsFor(clips)`, the idle action active and the calls of that one switch; every other field is unchanged |
| `Character.CharacterController.FindSpine` | src/characterController.js:106-112 | `hasSpine` becomes whether a spine bone was found; every other field is unchanged |
| `Character.CharacterController.HandleMouseLook` | src/characterController.js:197-208 | yaw and pitch become `LookStep(...)`; nothing else moves |
| `Character.CharacterController.HandleMovement` | src/characterController.js:210-290 | the vertical step always happens; aborted exactly when the candidate leaves the room, with x, z, the timer and the audio unchanged; otherwise x and z become the candidate, the footstep timer `FootstepStep(...)`, the laugh is timed, captioned and spoken exactly when asked for and let through by the 10 s gate, the walk sample plays exactly on a step, and the door line and the other audio settings are untouched |
| `Character.CharacterController.ApplyGravity` | src/characterController.js:227-248 | the vertical fields become `VerticalStep(...)` |
| `Character.CharacterController.WalkTo` | src/characterController.js:264-285 | the position becomes the candidate, the laugh timer, caption and utterances follow the 10 s gate, the footstep timer follows `FootstepStep`, the walk sample plays exactly on a step, and nothing else changes |
| `Character.CharacterController.SelectAnimation` | src/characterController.js:155-163 | the chosen role's action is active afterwards; the mixer and the actions are unchanged; the action calls grow by the switch calls exactly when the active action changed |
| `Character.CharacterController.HandleWeapon` | src/characterController.js:292-305 | recoil recovers by `Decay`; a shot fires exactly when the trigger is held and more than 0.15 s have passed, and then the shot is `ShotOf` the stance, `lastShotTime` is now, the kick is applied, its props are removed, its decal pushed and the gunshot played; otherwise none of these change |
| `Character.CharacterController.Fire` | src/characterController.js:307-376 | the gunshot plays, the kick is applied, and the shot is `ShotOf(...)` the stance; the props it breaks leave the scene and the decal list gets its decal; the voice lines, captions and audio settings are unchanged |
| `Character.CharacterController.PullTrigger` | src/characterController.js:298-304 | the firing part of `_handleWeapon`: the same shot, time, kick, removals, decal and gunshot as `HandleWeapon`, from the recoil already recovered |
| `Character.CharacterController.ApplyImpact` | src/characterController.js:369-404 | removed objects and decals follow `Removes` and `DecalPlacement` |
| `Character.CharacterController.CreateDecal` | src/characterController.js:537-544 | the list becomes `PushDecal(old list, decal)` and keeps at most 50 |
| `Character.CharacterController.Update` | src/characterController.js:152-195 | one frame keeps the invariant (in the room, y ≥ 0, grounded exactly on the floor, pitch in range, ≤ 50 decals); the view and vertical step always happen; the frame aborts exactly at a wall, leaving x, z, the footsteps, the weapon, the audio and the deltas; a completed frame walks the stride, runs the footstep timer, fires `ShotOf` the stance exactly when the gate is open (time, recoil, removals and decal as for `HandleWeapon`), plays the walk and gunshot samples, times the laugh, and resets the deltas; the door line is never spoken; the chosen clip is active |
| `Character.CharacterController.RecoverSpine` | src/characterController.js:169-184 | the spine recoil stays 0 (it is never kicked) |
| `Character.CharacterController.MoveAndShoot` | src/characterController.js:186-194 | movement, then (unless aborted) the weapon and the delta reset, with the completed frame's new state as for `Update` |

## Left out

- three.js: meshes, materials, geometry disposal, GLTF loading, bone search, the gun attachment, the character group's transform, the mixer's `update(dt)` and `_updateCamera`. These are engine calls. Load outcomes are the `Character.Assets` parameter, and the spine search is its `spineFound` flag.
- The raycaster's intersection maths: the intersections of the perturbed ray and the point 100 units along it are parameters of `Fire`.
- Visual effects: tracers, debris, muzzle flash and sparks. Their lifetimes run in `requestAnimationFrame`/`setTimeout` callbacks outside the frame. The decal texture, the decal's `lookAt` orientation and the linked light's intensity of 0.1 before removal are also left out.
- Audio output: oscillators, filters and gains, `ctx.resume`, and the samples of the procedural buffers beyond their kind. The `!this.ctx` guard of `startAmbience` is left out because the constructor always creates a context.
- Speech voice search and `showCaption`. The caption clear is recorded as its delay in the utterance, not run on a timer.
- The thunder's `setTimeout`: the delay is `Audio.ThunderDelayMs`, and the listener is a flag.
- The `if (!this.characterGroup) return` guards of `update` and `_handleMovement`: the group is created in the constructor and never cleared, so they never return.
- `src/main.js` wiring, `setupScene` construction, the listener registration of `_init`, and the empty `InputController.update`.
- Time and randomness: `Math.random()`, `performance.now()` and `dt` are parameters. The sine and cosine of the yaw (`applyAxisAngle`) are a `Motion.Heading` parameter, passed in.
- Floating point: all arithmetic is exact over reals. `Math.PI` is the constant 3.141592653589793, and `normalize()` of a diagonal is the factor 0.7071067811865475.
- `velocity.x` and `velocity.z` are never written by the source, so only the vertical velocity is a field.
- `toLowerCase` is modelled on ASCII letters only.
- Lookups in plain JavaScript objects (`actions[name]`, `sounds[name]`) are modelled as map membership, so inherited keys such as `constructor` are not modelled. The source only looks up clip names and its own sample names.
