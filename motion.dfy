/** The per-frame rules of src/characterController.js that move the player:
    mouse look with the pitch clamp, gravity, jump and floor, the walk inside
    the square room, and the footstep timer. Each is a function of the state
    before the frame and of the frame's inputs. */
module Motion {
  import opened World
  import opened Input

  const PitchLimit: real := Pi / 2.0 - 0.1
  const HipSensitivity: real := 0.002
  const AimSensitivity: real := 0.0005

  function Min(a: real, b: real): real { if a <= b then a else b }
  function Max(a: real, b: real): real { if a >= b then a else b }

  /** `Math.max(lo, Math.min(hi, v))`. */
  function Clamp(lo: real, hi: real, v: real): (r: real)
    ensures lo <= hi ==> lo <= r <= hi
    ensures lo <= v <= hi ==> r == v
    ensures lo <= hi < v ==> r == hi
    ensures v < lo ==> r == lo
  {
    Max(lo, Min(hi, v))
  }

  // ----- Mouse look -----

  datatype Look = Look(yaw: real, pitch: real)

  /** Radians per pixel of mouse motion: a quarter of the hip value while
      aiming. */
  function Sensitivity(aiming: bool): (r: real)
    ensures r > 0.0
    ensures aiming ==> r * 4.0 == HipSensitivity
    ensures !aiming ==> r == HipSensitivity
  {
    if aiming then AimSensitivity else HipSensitivity
  }

  /** `_handleMouseLook`: the mouse deltas turn yaw and pitch, four times
      more slowly while the right button (aim) is held; the pitch is kept
      0.1 rad short of straight up and straight down. */
  function LookStep(yaw: real, pitch: real, mouse: Mouse): (r: Look)
    ensures r.yaw == yaw - mouse.deltaX * Sensitivity(mouse.rightButton)
    ensures -PitchLimit <= r.pitch <= PitchLimit
    ensures var raw := pitch - mouse.deltaY * Sensitivity(mouse.rightButton);
      && (-PitchLimit <= raw <= PitchLimit ==> r.pitch == raw)
      && (raw > PitchLimit ==> r.pitch == PitchLimit)
      && (raw < -PitchLimit ==> r.pitch == -PitchLimit)
  {
    var s := Sensitivity(mouse.rightButton);
    Look(yaw - mouse.deltaX * s, Clamp(-PitchLimit, PitchLimit, pitch - mouse.deltaY * s))
  }

  /** Aiming scales the turn for the same mouse motion by exactly 1/4. */
  lemma AimTurnsSlower(yaw: real, pitch: real, mouse: Mouse)
    ensures LookStep(yaw, pitch, mouse.(rightButton := true)).yaw - yaw
         == (LookStep(yaw, pitch, mouse.(rightButton := false)).yaw - yaw) / 4.0
  {
  }

  // ----- Vertical physics -----

  const Gravity: real := 20.0
  const JumpForce: real := 8.0

  datatype Vertical = Vertical(y: real, vy: real, grounded: bool)

  /** The vertical velocity used to move this frame: gravity is applied,
      and a held jump key REPLACES it by the jump force only if the player
      was grounded. */
  function LaunchVelocity(vy: real, grounded: bool, jumpHeld: bool, dt: real): (v: real)
    ensures jumpHeld && grounded ==> v == JumpForce
    ensures !grounded ==> v == vy - Gravity * dt
    ensures !(jumpHeld && grounded) && dt >= 0.0 ==> v <= vy
  {
    if jumpHeld && grounded then JumpForce else vy - Gravity * dt
  }

  /** The vertical part of `_handleMovement`: integrate, then land on the
      floor y = 0, where the fall stops. */
  function VerticalStep(y: real, vy: real, grounded: bool, jumpHeld: bool, dt: real): (r: Vertical)
    ensures r.y >= 0.0
    ensures var v := LaunchVelocity(vy, grounded, jumpHeld, dt);
      && (r.grounded <==> y + v * dt <= 0.0)
      && (r.grounded ==> r.y == 0.0 && r.vy == 0.0)
      && (!r.grounded ==> r.y == y + v * dt && r.vy == v)
  {
    var v := LaunchVelocity(vy, grounded, jumpHeld, dt);
    var h := y + v * dt;
    if h <= 0.0 then Vertical(0.0, 0.0, true) else Vertical(h, v, false)
  }

  /** A jump needs the ground: in the air the jump key changes nothing, and
      from the ground a jump leaves it with velocity 8 (for dt > 0). */
  lemma JumpNeedsGround(y: real, vy: real, grounded: bool, dt: real)
    requires y >= 0.0
    ensures !grounded ==> VerticalStep(y, vy, grounded, true, dt) == VerticalStep(y, vy, grounded, false, dt)
    ensures grounded && dt > 0.0 ==>
      var r := VerticalStep(y, vy, grounded, true, dt);
      !r.grounded && r.vy == JumpForce && r.y == y + JumpForce * dt
  {
    if grounded && dt > 0.0 {
      assert JumpForce * dt > 0.0;
    }
  }

  /** The vertical state after a sequence of frames with the jump key up. */
  function Fall(y: real, vy: real, grounded: bool, dts: seq<real>): Vertical
    decreases |dts|
  {
    if dts == [] then Vertical(y, vy, grounded)
    else
      var r := VerticalStep(y, vy, grounded, false, dts[0]);
      Fall(r.y, r.vy, r.grounded, dts[1..])
  }

  function Sum(dts: seq<real>): real {
    if dts == [] then 0.0 else dts[0] + Sum(dts[1..])
  }

  /** The frames stay in the air: every frame's integrated height is above
      the floor. */
  predicate Airborne(y: real, vy: real, dts: seq<real>)
    decreases |dts|
  {
    dts == [] ||
    (y + (vy - Gravity * dts[0]) * dts[0] > 0.0 &&
     Airborne(y + (vy - Gravity * dts[0]) * dts[0], vy - Gravity * dts[0], dts[1..]))
  }

  /** As long as the player stays in the air, the vertical velocity falls by
      gravity times the elapsed time. Once the floor is touched the velocity
      is reset to 0 (see FloorStopsFall), so the linear law only holds
      between two landings. */
  lemma {:induction false} FreeFall(y: real, vy: real, grounded: bool, dts: seq<real>)
    requires Airborne(y, vy, dts)
    ensures Fall(y, vy, grounded, dts).vy == vy - Gravity * Sum(dts)
    ensures dts != [] ==> !Fall(y, vy, grounded, dts).grounded
    decreases |dts|
  {
    if dts != [] {
      var r := VerticalStep(y, vy, grounded, false, dts[0]);
      assert r == Vertical(y + (vy - Gravity * dts[0]) * dts[0], vy - Gravity * dts[0], false);
      FreeFall(r.y, r.vy, r.grounded, dts[1..]);
    }
  }

  /** Standing on the floor, a frame without a jump leaves the velocity 0,
      not -gravity * dt. */
  lemma FloorStopsFall(dt: real)
    requires dt >= 0.0
    ensures VerticalStep(0.0, 0.0, true, false, dt) == Vertical(0.0, 0.0, true)
    ensures dt > 0.0 ==> LaunchVelocity(0.0, true, false, dt) == -Gravity * dt != 0.0
  {
    assert (0.0 - Gravity * dt) * dt <= 0.0;
  }

  // ----- Horizontal movement -----

  const Bound: real := 3.5
  const Speed: real := 3.0
  /** 1/sqrt(2) for a diagonal: the largest 16-digit decimal below it. */
  const InvSqrt2: real := 0.7071067811865475

  /** Sine and cosine of the yaw, which the engine's `applyAxisAngle` uses. */
  datatype Heading = Heading(sin: real, cos: real)

  /** A horizontal direction (x, z). */
  datatype Dir = Dir(x: real, z: real)

  function Axis(plus: bool, minus: bool): real {
    (if plus then 1.0 else 0.0) - (if minus then 1.0 else 0.0)
  }

  /** The keys give a move along some axis (opposite keys cancel). */
  predicate Moving(keys: Keys) {
    Axis(keys.w, keys.s) != 0.0 || Axis(keys.d, keys.a) != 0.0
  }

  /** `moveDir`: forward (0, 0, -1) and right (1, 0, 0) turned by the yaw,
      added or subtracted per held key, then normalised. */
  function MoveDir(keys: Keys, h: Heading): (d: Dir)
    ensures !Moving(keys) ==> d == Dir(0.0, 0.0)
  {
    var f := Axis(keys.w, keys.s);
    var r := Axis(keys.d, keys.a);
    var scale := if f != 0.0 && r != 0.0 then InvSqrt2 else 1.0;
    Dir(scale * (f * -h.sin + r * h.cos), scale * (f * -h.cos + r * -h.sin))
  }

  /** Along one axis the direction is that axis turned by the yaw: forward
      (0, 0, -1) for W, backward for S, right (1, 0, 0) for D, left for A. */
  lemma MoveDirAxes(keys: Keys, h: Heading)
    ensures Axis(keys.d, keys.a) == 0.0 ==>
      MoveDir(keys, h) == Dir(-Axis(keys.w, keys.s) * h.sin, -Axis(keys.w, keys.s) * h.cos)
    ensures Axis(keys.w, keys.s) == 0.0 ==>
      MoveDir(keys, h) == Dir(Axis(keys.d, keys.a) * h.cos, -Axis(keys.d, keys.a) * h.sin)
  {
  }

  /** For a true sine/cosine pair the direction has length at most 1. */
  lemma MoveDirShort(keys: Keys, h: Heading)
    requires h.sin * h.sin + h.cos * h.cos == 1.0
    ensures var d := MoveDir(keys, h); d.x * d.x + d.z * d.z <= 1.0
  {
    var f := Axis(keys.w, keys.s);
    var r := Axis(keys.d, keys.a);
    var scale := if f != 0.0 && r != 0.0 then InvSqrt2 else 1.0;
    var a, b := f * -h.sin + r * h.cos, f * -h.cos + r * -h.sin;
    assert a * a + b * b == (f * f + r * r) * (h.sin * h.sin + h.cos * h.cos);
    assert scale * scale * (f * f + r * r) <= 1.0;
    var d := MoveDir(keys, h);
    assert d.x * d.x + d.z * d.z == scale * scale * (a * a + b * b);
  }

  /** The outcome of the horizontal part of `_handleMovement`. `Blocked` is
      a candidate position outside the room: the assignment to the
      undeclared `hitWall` throws there (an ES module is strict code), so the
      frame ends with x and z unchanged. `Walked` is the new position, with
      whether the photo corner (x > 2, z < -2) was entered. */
  datatype Stride = Blocked(candidateX: real, candidateZ: real) | Walked(x: real, z: real, laugh: bool)

  predicate InRoom(x: real, z: real) {
    Abs(x) <= Bound && Abs(z) <= Bound
  }

  function HorizontalStep(x: real, z: real, d: Dir, dt: real): (r: Stride)
    ensures var cx, cz := x + d.x * (Speed * dt), z + d.z * (Speed * dt);
      && (r.Blocked? <==> !InRoom(cx, cz))
      && (r.Blocked? ==> r.candidateX == cx && r.candidateZ == cz)
      && (r.Walked? ==> r.x == cx && r.z == cz && InRoom(r.x, r.z))
      && (r.Walked? ==> (r.laugh <==> cx > 2.0 && cz < -2.0))
  {
    var cx, cz := x + d.x * (Speed * dt), z + d.z * (Speed * dt);
    if Abs(cx) > Bound || Abs(cz) > Bound then Blocked(cx, cz)
    else Walked(Clamp(-Bound, Bound, cx), Clamp(-Bound, Bound, cz), cx > 2.0 && cz < -2.0)
  }

  /** A walking frame moves the player by at most speed * dt. */
  lemma StrideWithinReach(x: real, z: real, keys: Keys, h: Heading, dt: real)
    requires h.sin * h.sin + h.cos * h.cos == 1.0
    ensures var r := HorizontalStep(x, z, MoveDir(keys, h), dt);
      r.Walked? ==> (r.x - x) * (r.x - x) + (r.z - z) * (r.z - z) <= (Speed * dt) * (Speed * dt)
  {
    var d := MoveDir(keys, h);
    MoveDirShort(keys, h);
    var s := Speed * dt;
    assert (d.x * s) * (d.x * s) + (d.z * s) * (d.z * s) == (d.x * d.x + d.z * d.z) * (s * s);
    assert (d.x * d.x + d.z * d.z) * (s * s) <= s * s;
  }

  /** What the rest of the wall check in `_handleMovement` would do if the
      assignment to `hitWall` did not throw: ask for the door line whenever
      the candidate leaves the room, then clamp it to the room. `door` and
      `laugh` are the two voice cues. */
  datatype ClampedStride = ClampedStride(x: real, z: real, door: bool, laugh: bool)

  function ClampedStep(x: real, z: real, d: Dir, dt: real): (r: ClampedStride)
    ensures InRoom(r.x, r.z)
    ensures var cx, cz := x + d.x * (Speed * dt), z + d.z * (Speed * dt);
      && (r.door <==> !InRoom(cx, cz))
      && (InRoom(cx, cz) ==> r.x == cx && r.z == cz)
  {
    var cx, cz := x + d.x * (Speed * dt), z + d.z * (Speed * dt);
    ClampedStride(Clamp(-Bound, Bound, cx), Clamp(-Bound, Bound, cz),
                  Abs(cx) > Bound || Abs(cz) > Bound, cx > 2.0 && cz < -2.0)
  }

  /** Inside the room both readings agree; at a wall they differ. Walking
      east at x = 3.4 for 0.1 s the candidate is x = 3.7: the code as written
      stops the frame with the player at 3.4 and no door line, the clamp
      would have put the player at the wall, x = 3.5, and asked for the line. */
  lemma {:induction false} WallReadings(x: real, z: real, d: Dir, dt: real)
    ensures HorizontalStep(x, z, d, dt).Walked? ==>
      var w, c := HorizontalStep(x, z, d, dt), ClampedStep(x, z, d, dt);
      w.x == c.x && w.z == c.z && w.laugh == c.laugh && !c.door
    ensures HorizontalStep(3.4, 0.0, Dir(1.0, 0.0), 0.1) == Blocked(3.7, 0.0)
    ensures ClampedStep(3.4, 0.0, Dir(1.0, 0.0), 0.1) == ClampedStride(3.5, 0.0, true, false)
  {
    assert 3.4 + 1.0 * (Speed * 0.1) == 3.7;
  }

  // ----- Footsteps -----

  const StepInterval: real := 0.5

  datatype Footstep = Footstep(timer: real, step: bool)

  /** The footstep timer: while moving on the ground it runs down and, when
      it reaches 0, a 'walk' sound is played and it restarts at 0.5 s; at
      rest or in the air it is reset to 0, so the first step of a walk is
      immediate. `moving` is the normalised direction being non-zero. */
  function FootstepStep(timer: real, moving: bool, grounded: bool, dt: real): (r: Footstep)
    ensures r.step <==> moving && grounded && timer - dt <= 0.0
    ensures r.step ==> r.timer == StepInterval
    ensures moving && grounded && !r.step ==> r.timer == timer - dt
    ensures !(moving && grounded) ==> r.timer == 0.0
  {
    if moving && grounded then
      if timer - dt <= 0.0 then Footstep(StepInterval, true) else Footstep(timer - dt, false)
    else Footstep(0.0, false)
  }

  /** Whether a walk of `dts` on the ground, from `timer`, plays a step. */
  function StepsDuring(timer: real, dts: seq<real>): bool
    decreases |dts|
  {
    if dts == [] then false
    else
      var r := FootstepStep(timer, true, true, dts[0]);
      r.step || StepsDuring(r.timer, dts[1..])
  }

  predicate NonNegative(dts: seq<real>) {
    forall i :: 0 <= i < |dts| ==> dts[i] >= 0.0
  }

  /** No step is played before `timer` seconds of walking; after a step the
      timer is 0.5, so steps are at least 0.5 s of frame time apart. */
  lemma {:induction false} StepCadence(timer: real, dts: seq<real>)
    requires NonNegative(dts)
    requires Sum(dts) < timer
    ensures !StepsDuring(timer, dts)
    decreases |dts|
  {
    if dts != [] {
      SumNonNegative(dts[1..]);
      StepCadence(timer - dts[0], dts[1..]);
    }
  }

  lemma {:induction false} SumNonNegative(dts: seq<real>)
    requires NonNegative(dts)
    ensures Sum(dts) >= 0.0
    decreases |dts|
  {
    if dts != [] {
      SumNonNegative(dts[1..]);
    }
  }
}
