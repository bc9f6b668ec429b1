/** The player of src/characterController.js: one object whose `update`
    plays the clip the input asks for, turns the view, moves the body and
    fires the weapon, in that order, once per frame. */
module Character {
  import opened Wrappers
  import opened World
  import opened Input
  import opened Motion
  import opened Weapon
  import opened AnimSelect
  import Animation
  import Audio
  import Text

  /** The outcome of `load`'s asset fetches. `SoldierFailed` and
      `GunFailed` are the two points at which the `try` can be left for the
      placeholder; `clips` are the soldier's clip names, `spineFound`
      whether a bone named like a spine was found. */
  datatype Assets = SoldierFailed
                  | GunFailed(clips: seq<string>)
                  | Loaded(clips: seq<string>, spineFound: bool)

  /** The `Math.random()` values one frame may draw, each in [0, 1). */
  datatype Rolls = Rolls(walkRate: real, gunRate: real, kickX: real, kickY: real,
                         spreadX: real, spreadY: real, decalSize: real, decalSpin: real)
  {
    predicate InRange() {
      && 0.0 <= walkRate < 1.0 && 0.0 <= gunRate < 1.0
      && 0.0 <= kickX < 1.0 && 0.0 <= kickY < 1.0
      && 0.0 <= spreadX < 1.0 && 0.0 <= spreadY < 1.0
      && 0.0 <= decalSize < 1.0 && 0.0 <= decalSpin < 1.0
    }
  }

  /** One shot: the screen offset of the ray, where it went and what it did. */
  datatype Shot = Shot(offsetX: real, offsetY: real, aim: Aim, impact: Impact)

  /** The anim map fits the animation controller: the roles are defined
      exactly when there is a mixer (idle first), and every defined role
      names one of its actions. */
  predicate Fits(hasMixer: bool, actions: map<string, Animation.ActionId>, m: AnimMap) {
    && (hasMixer <==> m.idle.Some?)
    && (m.idle.None? ==> m.walk.None? && m.aim.None?)
    && forall role :: role in [m.idle, m.walk, m.aim] && role.Some? ==> Text.Lower(role.value) in actions
  }

  /** `new AnimationController(soldierGltf)` followed by
      `play(animMap.idle)`; `idle` is `None` only without clips, when
      `play` returns at once for want of a mixer. */
  method StartController(clips: seq<string>, idle: Option<string>) returns (c: Animation.AnimationController)
    ensures fresh(c) && c.Valid()
    ensures c.hasMixer == (|clips| > 0) && c.actions == Animation.ActionsFor(clips)
    ensures c.activeAction == if idle.Some? then Animation.Lookup(c.hasMixer, c.actions, idle.value) else None
    ensures c.calls == if c.activeAction.Some? then Animation.SwitchCalls(None, c.activeAction.value) else []
    ensures c.StartedWith(clips, idle)
  {
    c := new Animation.AnimationController(clips);
    if idle.Some? {
      c.Play(idle.value);
    }
  }

  /** What `_fire` computes for the stance (`aiming`: the right button,
      `moving`: a move key held): the spread offsets of the ray, where the
      ray goes among the intersections `hits` (nearest first, `farPoint` 100
      units along it) past the player's own `group`, and what it does. */
  function ShotOf(aiming: bool, moving: bool, group: ObjectId, rolls: Rolls, hits: seq<Hit>, farPoint: Vec3): (s: Shot)
    requires rolls.InRange()
    ensures Abs(s.offsetX) <= Spread(aiming, moving) / 2.0
    ensures Abs(s.offsetY) <= Spread(aiming, moving) / 2.0
    ensures s.aim == ResolveShot(hits, group, farPoint) && s.impact == ImpactOf(s.aim)
  {
    var spread := Spread(aiming, moving);
    var aim := ResolveShot(hits, group, farPoint);
    Shot(Offset(rolls.spreadX, spread), Offset(rolls.spreadY, spread), aim, ImpactOf(aim))
  }

  class CharacterController {
    const input: InputController
    const audio: Audio.AudioController
    /** `characterGroup`, the root of the player's own model. */
    const group: ObjectId
    var anim: Animation.AnimationController?
    var animMap: Option<AnimMap>
    var hasSpine: bool
    /** `recoil`, the spine recoil. */
    var spineRecoil: Recoil
    var position: Vec3
    var velocityY: real
    var isGrounded: bool
    var yaw: real
    var pitch: real
    var lastShotTime: real
    var currentRecoil: Recoil
    var stepTimer: real
    var decals: seq<Decal>
    /** The scene objects shots have removed (bulbs, their lights, crates). */
    var removed: set<ObjectId>

    /** The invariant every frame keeps: the player stands in the 7 x 7 room
        on or above the floor, grounded exactly on the floor and then at
        rest, with the pitch in range and at most 50 decals. `recoil` is
        never given a kick, so it stays 0. The animation controller and the
        anim map are set together, from the same clips. */
    ghost predicate Valid()
      reads this, audio, anim
    {
      && InRoom(position.x, position.z)
      && position.y >= 0.0
      && (isGrounded <==> position.y == 0.0)
      && (isGrounded ==> velocityY == 0.0)
      && -PitchLimit <= pitch <= PitchLimit
      && |decals| <= MaxDecals
      && spineRecoil == Recoil(0.0, 0.0)
      && audio.Valid()
      && (anim == null <==> animMap.None?)
      && (anim != null ==>
            && anim.Valid()
            && Fits(anim.hasMixer, anim.actions, animMap.value))
    }

    /** The player at the origin, on the floor, looking along -z. */
    constructor (input: InputController, speechAvailable: bool, group: ObjectId)
      ensures Valid() && fresh(audio)
      ensures audio.speechAvailable == speechAvailable && audio.sounds == map[]
      ensures !audio.ambienceStarted && audio.droneStarts == 0 && !audio.introPlayed
      ensures audio.doorTimer == 0.0 && audio.laughTimer == 0.0 && audio.caption == ""
      ensures audio.spoken == [] && audio.playbacks == [] && !audio.thunderListening
      ensures this.input == input && this.group == group
      ensures position == Vec3(0.0, 0.0, 0.0) && velocityY == 0.0 && isGrounded
      ensures yaw == 0.0 && pitch == 0.0 && lastShotTime == 0.0 && stepTimer == 0.0
      ensures currentRecoil == Recoil(0.0, 0.0) && decals == [] && removed == {}
      ensures anim == null && animMap == None && !hasSpine
    {
      this.input := input;
      this.group := group;
      audio := new Audio.AudioController(speechAvailable);
      anim := null;
      animMap := None;
      hasSpine := false;
      spineRecoil := Recoil(0.0, 0.0);
      position := Vec3(0.0, 0.0, 0.0);
      velocityY := 0.0;
      isGrounded := true;
      yaw := 0.0;
      pitch := 0.0;
      lastShotTime := 0.0;
      currentRecoil := Recoil(0.0, 0.0);
      stepTimer := 0.0;
      decals := [];
      removed := {};
    }

    /** `load()`: the sounds, then the models. */
    method Load(gunshotOk: bool, walkOk: bool, assets: Assets)
      requires Valid()
      modifies this, audio
      ensures Valid()
      ensures audio.sounds == old(audio.sounds) + Audio.LoadedSounds(gunshotOk, walkOk) && audio.thunderListening
      ensures audio.ambienceStarted == old(audio.ambienceStarted) && audio.droneStarts == old(audio.droneStarts)
      ensures audio.introPlayed == old(audio.introPlayed) && audio.doorTimer == old(audio.doorTimer)
      ensures audio.laughTimer == old(audio.laughTimer) && audio.caption == old(audio.caption)
      ensures audio.spoken == old(audio.spoken) && audio.playbacks == old(audio.playbacks)
      ensures assets.SoldierFailed? ==> anim == old(anim) && animMap == old(animMap) && hasSpine == old(hasSpine)
      ensures !assets.SoldierFailed? ==>
        && anim != null && fresh(anim)
        && animMap == Some(BuildAnimMap(assets.clips))
        && anim.hasMixer == (|assets.clips| > 0)
        && anim.activeAction == Animation.Lookup(anim.hasMixer, Animation.ActionsFor(assets.clips), animMap.value.idle.GetOr(""))
        && anim.StartedWith(assets.clips, animMap.value.idle)
      ensures assets.Loaded? ==> hasSpine == assets.spineFound
      ensures assets.GunFailed? ==> hasSpine == old(hasSpine)
      ensures position == old(position) && velocityY == old(velocityY) && isGrounded == old(isGrounded)
      ensures yaw == old(yaw) && pitch == old(pitch) && lastShotTime == old(lastShotTime) && stepTimer == old(stepTimer)
      ensures currentRecoil == old(currentRecoil) && spineRecoil == old(spineRecoil)
      ensures decals == old(decals) && removed == old(removed)
    {
      audio.Load(gunshotOk, walkOk);
      LoadModels(assets);
    }

    /** The `try` of `load`: the soldier and its clips, then the gun and
        the spine bone; a failure leaves the placeholder, which only draws. */
    method LoadModels(assets: Assets)
      requires Valid()
      modifies this
      ensures Valid()
      ensures assets.SoldierFailed? ==> anim == old(anim) && animMap == old(animMap) && hasSpine == old(hasSpine)
      ensures !assets.SoldierFailed? ==>
        && anim != null && fresh(anim)
        && animMap == Some(BuildAnimMap(assets.clips))
        && anim.hasMixer == (|assets.clips| > 0)
        && anim.activeAction == Animation.Lookup(anim.hasMixer, Animation.ActionsFor(assets.clips), animMap.value.idle.GetOr(""))
        && anim.StartedWith(assets.clips, animMap.value.idle)
      ensures assets.Loaded? ==> hasSpine == assets.spineFound
      ensures assets.GunFailed? ==> hasSpine == old(hasSpine)
      ensures position == old(position) && velocityY == old(velocityY) && isGrounded == old(isGrounded)
      ensures yaw == old(yaw) && pitch == old(pitch) && lastShotTime == old(lastShotTime) && stepTimer == old(stepTimer)
      ensures currentRecoil == old(currentRecoil) && spineRecoil == old(spineRecoil)
      ensures decals == old(decals) && removed == old(removed)
    {
      if assets.SoldierFailed? {
        return;
      }
      MapFitsController(assets.clips);
      AttachSoldier(assets.clips, BuildAnimMap(assets.clips));
      if assets.Loaded? {
        FindSpine(assets.spineFound);
      }
    }

    /** The last step of the `try` of `load`, once the gun is attached: the
        spine bone is looked up; `found` is whether one was found. */
    method FindSpine(found: bool)
      requires Valid()
      modifies this
      ensures Valid()
      ensures hasSpine == found
      ensures anim == old(anim) && animMap == old(animMap)
      ensures position == old(position) && velocityY == old(velocityY) && isGrounded == old(isGrounded)
      ensures yaw == old(yaw) && pitch == old(pitch) && lastShotTime == old(lastShotTime) && stepTimer == old(stepTimer)
      ensures currentRecoil == old(currentRecoil) && spineRecoil == old(spineRecoil)
      ensures decals == old(decals) && removed == old(removed)
    {
      hasSpine := found;
    }

    /** The soldier's part of `load`: an animation controller over its
        clips, the anim map `m` built from them, and the idle role played at
        once. */
    method AttachSoldier(clips: seq<string>, m: AnimMap)
      requires Valid()
      requires Fits(|clips| > 0, Animation.ActionsFor(clips), m)
      modifies this
      ensures Valid()
      ensures anim != null && fresh(anim) && animMap == Some(m)
      ensures anim.hasMixer == (|clips| > 0) && anim.actions == Animation.ActionsFor(clips)
      ensures anim.activeAction == Animation.Lookup(anim.hasMixer, Animation.ActionsFor(clips), m.idle.GetOr(""))
      ensures anim.calls == if anim.activeAction.Some? then Animation.SwitchCalls(None, anim.activeAction.value) else []
      ensures anim.StartedWith(clips, m.idle)
      ensures position == old(position) && velocityY == old(velocityY) && isGrounded == old(isGrounded)
      ensures yaw == old(yaw) && pitch == old(pitch) && lastShotTime == old(lastShotTime) && stepTimer == old(stepTimer)
      ensures currentRecoil == old(currentRecoil) && spineRecoil == old(spineRecoil) && hasSpine == old(hasSpine)
      ensures decals == old(decals) && removed == old(removed)
    {
      var controller := StartController(clips, m.idle);
      assert controller.Valid() && Fits(controller.hasMixer, controller.actions, m);
      anim := controller;
      animMap := Some(m);
    }

    /** `_handleMouseLook`. */
    method HandleMouseLook()
      requires Valid()
      modifies this
      ensures Valid()
      ensures Look(yaw, pitch) == LookStep(old(yaw), old(pitch), input.mouse)
      ensures position == old(position) && velocityY == old(velocityY) && isGrounded == old(isGrounded)
      ensures stepTimer == old(stepTimer) && lastShotTime == old(lastShotTime) && currentRecoil == old(currentRecoil)
      ensures decals == old(decals) && removed == old(removed) && spineRecoil == old(spineRecoil)
      ensures anim == old(anim) && animMap == old(animMap) && hasSpine == old(hasSpine)
    {
      var look := LookStep(yaw, pitch, input.mouse);
      yaw := look.yaw;
      pitch := look.pitch;
    }

    /** `_handleMovement` at `nowMs` (`performance.now()`), with the yaw's
        sine and cosine. Returns false when the wall check aborts the frame:
        the vertical move has happened, x and z keep their old values and
        nothing after the check runs. Otherwise the player walks to the
        candidate, the photo corner asks for the laugh, and the footstep
        timer runs. The door line is never spoken. */
    method HandleMovement(dt: real, nowMs: real, h: Heading, walkRoll: real) returns (completed: bool)
      requires Valid()
      requires 0.0 <= walkRoll < 1.0
      modifies this, audio
      ensures Valid()
      ensures var v := VerticalStep(old(position.y), old(velocityY), old(isGrounded), input.keys.space, dt);
        position.y == v.y && velocityY == v.vy && isGrounded == v.grounded
      ensures var d := MoveDir(input.keys, h);
        var stride := HorizontalStep(old(position.x), old(position.z), d, dt);
        && (completed <==> stride.Walked?)
        && (!completed ==>
              && position.x == old(position.x) && position.z == old(position.z)
              && stepTimer == old(stepTimer) && unchanged(audio))
        && (completed ==>
              var step := FootstepStep(old(stepTimer), d != Dir(0.0, 0.0), isGrounded, dt);
              && position.x == stride.x && position.z == stride.z
              && stepTimer == step.timer
              && audio.LaughedIf(stride.laugh && Audio.Accepts(old(audio.laughTimer), nowMs, Audio.LaughCooldownMs), nowMs)
              && audio.playbacks == old(audio.playbacks)
                   + (if step.step then Audio.Sounded(old(audio.sounds), "walk", walkRoll) else []))
      ensures audio.SettingsKept()
      ensures yaw == old(yaw) && pitch == old(pitch) && lastShotTime == old(lastShotTime)
      ensures currentRecoil == old(currentRecoil) && spineRecoil == old(spineRecoil)
      ensures decals == old(decals) && removed == old(removed)
      ensures anim == old(anim) && animMap == old(animMap) && hasSpine == old(hasSpine)
    {
      var d := MoveDir(input.keys, h);
      ApplyGravity(dt);
      var stride := HorizontalStep(position.x, position.z, d, dt);
      if stride.Blocked? {
        return false;
      }
      WalkTo(stride, d != Dir(0.0, 0.0), nowMs, dt, walkRoll);
      return true;
    }

    /** The vertical part of `_handleMovement`: gravity, the jump and the
        floor. */
    method ApplyGravity(dt: real)
      requires Valid()
      modifies this
      ensures Valid()
      ensures var v := VerticalStep(old(position.y), old(velocityY), old(isGrounded), input.keys.space, dt);
        position == old(position).(y := v.y) && velocityY == v.vy && isGrounded == v.grounded
      ensures stepTimer == old(stepTimer)
      ensures yaw == old(yaw) && pitch == old(pitch) && lastShotTime == old(lastShotTime)
      ensures currentRecoil == old(currentRecoil) && spineRecoil == old(spineRecoil)
      ensures decals == old(decals) && removed == old(removed)
      ensures anim == old(anim) && animMap == old(animMap) && hasSpine == old(hasSpine)
    {
      var v := VerticalStep(position.y, velocityY, isGrounded, input.keys.space, dt);
      position := position.(y := v.y);
      velocityY := v.vy;
      isGrounded := v.grounded;
    }

    /** The rest of `_handleMovement` once the candidate is inside the
        room: the laugh in the photo corner, the move, and the footsteps
        (`moving` is `moveDir.length() > 0`). */
    method WalkTo(stride: Stride, moving: bool, nowMs: real, dt: real, walkRoll: real)
      requires Valid() && stride.Walked? && InRoom(stride.x, stride.z)
      requires 0.0 <= walkRoll < 1.0
      modifies this, audio
      ensures Valid()
      ensures var step := FootstepStep(old(stepTimer), moving, isGrounded, dt);
        && position == old(position).(x := stride.x, z := stride.z)
        && stepTimer == step.timer
        && audio.LaughedIf(stride.laugh && Audio.Accepts(old(audio.laughTimer), nowMs, Audio.LaughCooldownMs), nowMs)
        && audio.playbacks == old(audio.playbacks)
             + (if step.step then Audio.Sounded(old(audio.sounds), "walk", walkRoll) else [])
      ensures audio.SettingsKept()
      ensures velocityY == old(velocityY) && isGrounded == old(isGrounded)
      ensures yaw == old(yaw) && pitch == old(pitch) && lastShotTime == old(lastShotTime)
      ensures currentRecoil == old(currentRecoil) && spineRecoil == old(spineRecoil)
      ensures decals == old(decals) && removed == old(removed)
      ensures anim == old(anim) && animMap == old(animMap) && hasSpine == old(hasSpine)
    {
      if stride.laugh {
        audio.PlayLaugh(nowMs);
      }
      position := position.(x := stride.x, z := stride.z);
      var step := FootstepStep(stepTimer, moving, isGrounded, dt);
      if step.step {
        audio.Play("walk", walkRoll);
      }
      stepTimer := step.timer;
    }

    /** The clip selection of `update`: the role the input asks for is
        played, so it is the active action afterwards; a switch of action
        makes the fade-out, reset, fade-in and start calls. */
    method SelectAnimation()
      requires Valid()
      modifies anim
      ensures Valid()
      ensures anim != null ==>
        var clip := ChooseClip(animMap.value, input.keys, input.mouse);
        && anim.hasMixer == old(anim.hasMixer) && anim.actions == old(anim.actions)
        && (clip.Some? ==> anim.activeAction == Some(anim.actions[Text.Lower(clip.value)]))
        && (anim.activeAction == old(anim.activeAction) ==> anim.calls == old(anim.calls))
        && (anim.activeAction != old(anim.activeAction) ==>
              anim.activeAction.Some?
              && anim.calls == old(anim.calls) + Animation.SwitchCalls(old(anim.activeAction), anim.activeAction.value))
    {
      if anim != null && animMap.Some? {
        var clip := ChooseClip(animMap.value, input.keys, input.mouse);
        if clip.Some? {
          anim.Play(clip.value);
        }
      }
    }

    /** `_handleWeapon` at `nowMs`: the recoil recovers, then a held trigger
        fires if more than 0.15 s have passed since the last shot. */
    method HandleWeapon(dt: real, nowMs: real, rolls: Rolls, hits: seq<Hit>, farPoint: Vec3) returns (shot: Option<Shot>)
      requires Valid() && rolls.InRange()
      modifies this, audio
      ensures Valid()
      ensures var now := nowMs / 1000.0;
        var fired := input.mouse.leftButton && Ready(now, old(lastShotTime));
        var s := ShotOf(input.mouse.rightButton, input.keys.AnyMoveKey(), group, rolls, hits, farPoint);
        var settled := Decay(old(currentRecoil), dt * 10.0);
        var p := DecalPlacement(s.impact);
        && shot == (if fired then Some(s) else None)
        && lastShotTime == (if fired then now else old(lastShotTime))
        && currentRecoil == (if fired then Kick(settled, rolls.kickX, rolls.kickY) else settled)
        && removed == (if fired then old(removed) + Removes(s.impact) else old(removed))
        && decals == (if fired && p.Some? then PushDecal(old(decals), NewDecal(p.value, rolls.decalSize, rolls.decalSpin))
                      else old(decals))
        && audio.playbacks == old(audio.playbacks)
             + (if fired then Audio.Sounded(old(audio.sounds), "gunshot", rolls.gunRate) else [])
      ensures audio.SettingsKept() && audio.laughTimer == old(audio.laughTimer)
      ensures audio.caption == old(audio.caption) && audio.spoken == old(audio.spoken)
      ensures position == old(position) && velocityY == old(velocityY) && isGrounded == old(isGrounded)
      ensures yaw == old(yaw) && pitch == old(pitch) && stepTimer == old(stepTimer) && spineRecoil == old(spineRecoil)
      ensures anim == old(anim) && animMap == old(animMap) && hasSpine == old(hasSpine)
    {
      currentRecoil := Decay(currentRecoil, dt * 10.0);
      shot := PullTrigger(nowMs / 1000.0, rolls, hits, farPoint);
    }

    /** The firing part of `_handleWeapon` at `now` seconds. */
    method PullTrigger(now: real, rolls: Rolls, hits: seq<Hit>, farPoint: Vec3) returns (shot: Option<Shot>)
      requires Valid() && rolls.InRange()
      modifies this, audio
      ensures Valid()
      ensures var fired := input.mouse.leftButton && Ready(now, old(lastShotTime));
        var s := ShotOf(input.mouse.rightButton, input.keys.AnyMoveKey(), group, rolls, hits, farPoint);
        var p := DecalPlacement(s.impact);
        && shot == (if fired then Some(s) else None)
        && lastShotTime == (if fired then now else old(lastShotTime))
        && currentRecoil == (if fired then Kick(old(currentRecoil), rolls.kickX, rolls.kickY) else old(currentRecoil))
        && removed == (if fired then old(removed) + Removes(s.impact) else old(removed))
        && decals == (if fired && p.Some? then PushDecal(old(decals), NewDecal(p.value, rolls.decalSize, rolls.decalSpin))
                      else old(decals))
        && audio.playbacks == old(audio.playbacks)
             + (if fired then Audio.Sounded(old(audio.sounds), "gunshot", rolls.gunRate) else [])
      ensures audio.SettingsKept() && audio.laughTimer == old(audio.laughTimer)
      ensures audio.caption == old(audio.caption) && audio.spoken == old(audio.spoken)
      ensures position == old(position) && velocityY == old(velocityY) && isGrounded == old(isGrounded)
      ensures yaw == old(yaw) && pitch == old(pitch) && stepTimer == old(stepTimer) && spineRecoil == old(spineRecoil)
      ensures anim == old(anim) && animMap == old(animMap) && hasSpine == old(hasSpine)
    {
      if input.mouse.leftButton && Ready(now, lastShotTime) {
        var s := Fire(rolls, hits, farPoint);
        lastShotTime := now;
        shot := Some(s);
      } else {
        shot := None;
      }
    }

    /** `_fire`: the gunshot, the kick, the perturbed ray, and its effect on
        the first hit that is not the player. `hits` are the engine's
        intersections of the perturbed ray, nearest first, and `farPoint`
        the point 100 units along it. */
    method Fire(rolls: Rolls, hits: seq<Hit>, farPoint: Vec3) returns (shot: Shot)
      requires Valid() && rolls.InRange()
      modifies this, audio
      ensures Valid()
      ensures shot == ShotOf(input.mouse.rightButton, input.keys.AnyMoveKey(), group, rolls, hits, farPoint)
      ensures currentRecoil == Kick(old(currentRecoil), rolls.kickX, rolls.kickY)
      ensures audio.playbacks == old(audio.playbacks) + Audio.Sounded(old(audio.sounds), "gunshot", rolls.gunRate)
      ensures removed == old(removed) + Removes(shot.impact)
      ensures var p := DecalPlacement(shot.impact);
        decals == if p.Some? then PushDecal(old(decals), NewDecal(p.value, rolls.decalSize, rolls.decalSpin)) else old(decals)
      ensures audio.SettingsKept() && audio.laughTimer == old(audio.laughTimer)
      ensures audio.caption == old(audio.caption) && audio.spoken == old(audio.spoken)
      ensures position == old(position) && velocityY == old(velocityY) && isGrounded == old(isGrounded)
      ensures yaw == old(yaw) && pitch == old(pitch) && stepTimer == old(stepTimer)
      ensures lastShotTime == old(lastShotTime) && spineRecoil == old(spineRecoil)
      ensures anim == old(anim) && animMap == old(animMap) && hasSpine == old(hasSpine)
    {
      audio.Play("gunshot", rolls.gunRate);
      currentRecoil := Kick(currentRecoil, rolls.kickX, rolls.kickY);
      shot := ShotOf(input.mouse.rightButton, input.keys.AnyMoveKey(), group, rolls, hits, farPoint);
      ApplyImpact(shot.impact, rolls.decalSize, rolls.decalSpin);
    }

    /** The impact branch of `_fire` and `_breakObject`: broken props leave
        the scene, and an ordinary hit or a broken bulb leaves a decal. */
    method ApplyImpact(impact: Impact, sizeRoll: real, spinRoll: real)
      requires Valid()
      requires 0.0 <= sizeRoll < 1.0 && 0.0 <= spinRoll < 1.0
      modifies this
      ensures Valid()
      ensures removed == old(removed) + Removes(impact)
      ensures var p := DecalPlacement(impact);
        decals == if p.Some? then PushDecal(old(decals), NewDecal(p.value, sizeRoll, spinRoll)) else old(decals)
      ensures position == old(position) && velocityY == old(velocityY) && isGrounded == old(isGrounded)
      ensures yaw == old(yaw) && pitch == old(pitch) && stepTimer == old(stepTimer)
      ensures lastShotTime == old(lastShotTime) && currentRecoil == old(currentRecoil) && spineRecoil == old(spineRecoil)
      ensures anim == old(anim) && animMap == old(animMap) && hasSpine == old(hasSpine)
    {
      removed := removed + Removes(impact);
      var p := DecalPlacement(impact);
      if p.Some? {
        CreateDecal(p.value, sizeRoll, spinRoll);
      }
    }

    /** `_createDecal`, list part: the new decal is pushed and, once there
        are more than 50, the oldest one is shifted out. */
    method CreateDecal(p: Placement, sizeRoll: real, spinRoll: real)
      requires Valid()
      requires 0.0 <= sizeRoll < 1.0 && 0.0 <= spinRoll < 1.0
      modifies this
      ensures Valid()
      ensures decals == PushDecal(old(decals), NewDecal(p, sizeRoll, spinRoll))
      ensures position == old(position) && velocityY == old(velocityY) && isGrounded == old(isGrounded)
      ensures yaw == old(yaw) && pitch == old(pitch) && stepTimer == old(stepTimer)
      ensures lastShotTime == old(lastShotTime) && currentRecoil == old(currentRecoil) && spineRecoil == old(spineRecoil)
      ensures removed == old(removed)
      ensures anim == old(anim) && animMap == old(animMap) && hasSpine == old(hasSpine)
    {
      var d := NewDecal(p, sizeRoll, spinRoll);
      decals := decals + [d];
      if |decals| > MaxDecals {
        decals := decals[1..];
      }
    }

    /** One frame, `update(dt)` at `nowMs`. `completed` is false when the
        wall check aborts the frame: the view has turned and the vertical
        move happened, but x and z, the footsteps, the weapon, the sounds
        and the mouse deltas are left as they were. On a completed frame the
        player has walked its stride, the footstep timer and the recoil have
        run, a held trigger past the fire-rate gate has fired `ShotOf` the
        stance, and the deltas are consumed. The door line is never spoken.
        `h` is the sine and cosine of the yaw after this frame's mouse look,
        which is the yaw `_handleMovement` turns its axes by. */
    method Update(dt: real, nowMs: real, h: Heading, rolls: Rolls, hits: seq<Hit>, farPoint: Vec3)
      returns (completed: bool, shot: Option<Shot>)
      requires Valid() && rolls.InRange()
      modifies this, input, audio, anim
      ensures Valid()
      ensures input.keys == old(input.keys)
      ensures Look(yaw, pitch) == LookStep(old(yaw), old(pitch), old(input.mouse))
      ensures var v := VerticalStep(old(position.y), old(velocityY), old(isGrounded), old(input.keys).space, dt);
        position.y == v.y && velocityY == v.vy && isGrounded == v.grounded
      ensures var d := MoveDir(old(input.keys), h);
        var stride := HorizontalStep(old(position.x), old(position.z), d, dt);
        && (completed <==> stride.Walked?)
        && (!completed ==>
              && position.x == old(position.x) && position.z == old(position.z) && stepTimer == old(stepTimer)
              && lastShotTime == old(lastShotTime) && currentRecoil == old(currentRecoil)
              && decals == old(decals) && removed == old(removed)
              && shot.None? && input.mouse == old(input.mouse) && unchanged(audio))
        && (completed ==>
              var step := FootstepStep(old(stepTimer), d != Dir(0.0, 0.0), isGrounded, dt);
              var fired := old(input.mouse).leftButton && Ready(nowMs / 1000.0, old(lastShotTime));
              var s := ShotOf(old(input.mouse).rightButton, old(input.keys).AnyMoveKey(), group, rolls, hits, farPoint);
              var settled := Decay(old(currentRecoil), dt * 10.0);
              var p := DecalPlacement(s.impact);
              && position.x == stride.x && position.z == stride.z
              && stepTimer == step.timer
              && shot == (if fired then Some(s) else None)
              && lastShotTime == (if fired then nowMs / 1000.0 else old(lastShotTime))
              && currentRecoil == (if fired then Kick(settled, rolls.kickX, rolls.kickY) else settled)
              && removed == (if fired then old(removed) + Removes(s.impact) else old(removed))
              && decals == (if fired && p.Some? then PushDecal(old(decals), NewDecal(p.value, rolls.decalSize, rolls.decalSpin))
                            else old(decals))
              && audio.LaughedIf(stride.laugh && Audio.Accepts(old(audio.laughTimer), nowMs, Audio.LaughCooldownMs), nowMs)
              && audio.playbacks == old(audio.playbacks)
                   + (if step.step then Audio.Sounded(old(audio.sounds), "walk", rolls.walkRate) else [])
                   + (if fired then Audio.Sounded(old(audio.sounds), "gunshot", rolls.gunRate) else [])
              && input.mouse == old(input.mouse).(deltaX := 0.0, deltaY := 0.0))
      ensures audio.SettingsKept()
      ensures spineRecoil == Recoil(0.0, 0.0)
      ensures anim == old(anim) && animMap == old(animMap) && hasSpine == old(hasSpine)
      ensures anim != null ==>
        var clip := ChooseClip(animMap.value, old(input.keys), old(input.mouse));
        && anim.hasMixer == old(anim.hasMixer) && anim.actions == old(anim.actions)
        && (clip.Some? ==> anim.activeAction == Some(anim.actions[Text.Lower(clip.value)]))
        && (anim.activeAction == old(anim.activeAction) ==> anim.calls == old(anim.calls))
        && (anim.activeAction != old(anim.activeAction) ==>
              anim.activeAction.Some?
              && anim.calls == old(anim.calls) + Animation.SwitchCalls(old(anim.activeAction), anim.activeAction.value))
    {
      SelectAnimation();
      RecoverSpine(dt);
      HandleMouseLook();
      completed, shot := MoveAndShoot(dt, nowMs, h, rolls, hits, farPoint);
    }

    /** The spine recoil eases back toward 0 while there is a spine bone. */
    method RecoverSpine(dt: real)
      requires Valid()
      modifies this
      ensures Valid()
      ensures spineRecoil == Recoil(0.0, 0.0)
      ensures position == old(position) && velocityY == old(velocityY) && isGrounded == old(isGrounded)
      ensures yaw == old(yaw) && pitch == old(pitch) && stepTimer == old(stepTimer)
      ensures lastShotTime == old(lastShotTime) && currentRecoil == old(currentRecoil)
      ensures decals == old(decals) && removed == old(removed)
      ensures anim == old(anim) && animMap == old(animMap) && hasSpine == old(hasSpine)
    {
      if hasSpine {
        spineRecoil := Decay(spineRecoil, dt * 15.0);
      }
    }

    /** The part of `update` from `_handleMovement` on. */
    method MoveAndShoot(dt: real, nowMs: real, h: Heading, rolls: Rolls, hits: seq<Hit>, farPoint: Vec3)
      returns (completed: bool, shot: Option<Shot>)
      requires Valid() && rolls.InRange()
      modifies this, input, audio
      ensures Valid()
      ensures input.keys == old(input.keys)
      ensures yaw == old(yaw) && pitch == old(pitch)
      ensures var v := VerticalStep(old(position.y), old(velocityY), old(isGrounded), old(input.keys).space, dt);
        position.y == v.y && velocityY == v.vy && isGrounded == v.grounded
      ensures var d := MoveDir(old(input.keys), h);
        var stride := HorizontalStep(old(position.x), old(position.z), d, dt);
        && (completed <==> stride.Walked?)
        && (!completed ==>
              && position.x == old(position.x) && position.z == old(position.z) && stepTimer == old(stepTimer)
              && lastShotTime == old(lastShotTime) && currentRecoil == old(currentRecoil)
              && decals == old(decals) && removed == old(removed)
              && shot.None? && input.mouse == old(input.mouse) && unchanged(audio))
        && (completed ==>
              var step := FootstepStep(old(stepTimer), d != Dir(0.0, 0.0), isGrounded, dt);
              var fired := old(input.mouse).leftButton && Ready(nowMs / 1000.0, old(lastShotTime));
              var s := ShotOf(old(input.mouse).rightButton, old(input.keys).AnyMoveKey(), group, rolls, hits, farPoint);
              var settled := Decay(old(currentRecoil), dt * 10.0);
              var p := DecalPlacement(s.impact);
              && position.x == stride.x && position.z == stride.z
              && stepTimer == step.timer
              && shot == (if fired then Some(s) else None)
              && lastShotTime == (if fired then nowMs / 1000.0 else old(lastShotTime))
              && currentRecoil == (if fired then Kick(settled, rolls.kickX, rolls.kickY) else settled)
              && removed == (if fired then old(removed) + Removes(s.impact) else old(removed))
              && decals == (if fired && p.Some? then PushDecal(old(decals), NewDecal(p.value, rolls.decalSize, rolls.decalSpin))
                            else old(decals))
              && audio.LaughedIf(stride.laugh && Audio.Accepts(old(audio.laughTimer), nowMs, Audio.LaughCooldownMs), nowMs)
              && audio.playbacks == old(audio.playbacks)
                   + (if step.step then Audio.Sounded(old(audio.sounds), "walk", rolls.walkRate) else [])
                   + (if fired then Audio.Sounded(old(audio.sounds), "gunshot", rolls.gunRate) else [])
              && input.mouse == old(input.mouse).(deltaX := 0.0, deltaY := 0.0))
      ensures audio.SettingsKept()
      ensures spineRecoil == old(spineRecoil)
      ensures anim == old(anim) && animMap == old(animMap) && hasSpine == old(hasSpine)
    {
      completed := HandleMovement(dt, nowMs, h, rolls.walkRate);
      if !completed {
        shot := None;
        return;
      }
      shot := HandleWeapon(dt, nowMs, rolls, hits, farPoint);
      input.ResetDeltas();
    }
  }
}
