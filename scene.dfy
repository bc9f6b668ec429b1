/** The parts of src/scene.js with state or structure: the lightning timer
    that `updateScene` advances every frame, and the tagging of the ceiling
    bulbs and crates as breakable. */
module Scene {
  import opened Wrappers
  import opened World

  // ----- Lightning -----

  /** The result of one `updateScene(dt)`: the module-level timers, the
      lightning light's intensity and x position, and whether the
      'lightning-strike' event was dispatched. */
  datatype Sky = Sky(timer: real, duration: real, intensity: real, lightX: real, strike: bool)

  predicate IsRoll(r: real) {
    0.0 <= r < 1.0
  }

  /** One frame of lightning. `roll1` and `roll2` are the frame's two
      `Math.random()` results: intensity and x of a flicker, or duration and
      next timer of a strike. */
  function LightningStep(timer: real, duration: real, intensity: real, lightX: real, dt: real, roll1: real, roll2: real): (r: Sky)
    requires IsRoll(roll1) && IsRoll(roll2)
    // flashing: the flash runs down, the idle timer is left alone
    ensures duration > 0.0 ==> r.duration == duration - dt && r.timer == timer && !r.strike
    ensures duration > 0.0 ==> 0.0 <= r.intensity < 20.0 && -5.0 <= r.lightX < 5.0
    // idle: the light is off and the idle timer runs down
    ensures duration <= 0.0 ==> r.intensity == 0.0 && r.lightX == lightX
    ensures r.strike <==> duration <= 0.0 && timer - dt <= 0.0
    ensures duration <= 0.0 && !r.strike ==> r.timer == timer - dt && r.duration == duration
    // a strike starts a flash of 0.1 to 0.3 s and sets the next one 3 to 8 s away
    ensures r.strike ==> 0.1 <= r.duration < 0.3 && 3.0 <= r.timer < 8.0
  {
    if duration > 0.0 then
      Sky(timer, duration - dt, roll1 * 20.0, (roll2 - 0.5) * 10.0, false)
    else if timer - dt <= 0.0 then
      Sky(3.0 + roll2 * 5.0, 0.1 + roll1 * 0.2, 0.0, lightX, true)
    else
      Sky(timer - dt, duration, 0.0, lightX, false)
  }

  /** One frame's inputs: `dt` and the two random rolls. */
  datatype Tick = Tick(dt: real, roll1: real, roll2: real)

  predicate ValidTicks(ticks: seq<Tick>) {
    forall i :: 0 <= i < |ticks| ==> ticks[i].dt >= 0.0 && IsRoll(ticks[i].roll1) && IsRoll(ticks[i].roll2)
  }

  function Elapsed(ticks: seq<Tick>): real {
    if ticks == [] then 0.0 else ticks[0].dt + Elapsed(ticks[1..])
  }

  /** Whether any of `ticks`, run from the given state, dispatches a strike. */
  function StrikesDuring(timer: real, duration: real, intensity: real, lightX: real, ticks: seq<Tick>): bool
    requires ValidTicks(ticks)
    decreases |ticks|
  {
    if ticks == [] then false
    else
      var s := LightningStep(timer, duration, intensity, lightX, ticks[0].dt, ticks[0].roll1, ticks[0].roll2);
      s.strike || StrikesDuring(s.timer, s.duration, s.intensity, s.lightX, ticks[1..])
  }

  /** No strike is dispatched before `timer` seconds have elapsed, whatever
      the phase; since a strike sets the timer to at least 3, two strikes are
      always at least 3 s of frame time apart. */
  lemma {:induction false} NoStrikeBeforeTimer(timer: real, duration: real, intensity: real, lightX: real, ticks: seq<Tick>)
    requires ValidTicks(ticks)
    requires Elapsed(ticks) < timer
    ensures !StrikesDuring(timer, duration, intensity, lightX, ticks)
    decreases |ticks|
  {
    if ticks != [] {
      var s := LightningStep(timer, duration, intensity, lightX, ticks[0].dt, ticks[0].roll1, ticks[0].roll2);
      assert Elapsed(ticks[1..]) >= 0.0 by { ElapsedNonNegative(ticks[1..]); }
      NoStrikeBeforeTimer(s.timer, s.duration, s.intensity, s.lightX, ticks[1..]);
    }
  }

  lemma {:induction false} ElapsedNonNegative(ticks: seq<Tick>)
    requires ValidTicks(ticks)
    ensures Elapsed(ticks) >= 0.0
  {
    if ticks != [] {
      ElapsedNonNegative(ticks[1..]);
    }
  }

  /** The module-level lightning state of src/scene.js. */
  class Lightning {
    var timer: real
    var duration: real
    var intensity: real
    var lightX: real

    /** Both timers start at 0; the light is created dark at (0, 5, 0). */
    constructor ()
      ensures timer == 0.0 && duration == 0.0 && intensity == 0.0 && lightX == 0.0
    {
      timer, duration, intensity, lightX := 0.0, 0.0, 0.0, 0.0;
    }

    /** `updateScene(dt)`; `strike` stands for the dispatched event. */
    method Update(dt: real, roll1: real, roll2: real) returns (strike: bool)
      requires IsRoll(roll1) && IsRoll(roll2)
      modifies this
      ensures var s := LightningStep(old(timer), old(duration), old(intensity), old(lightX), dt, roll1, roll2);
        timer == s.timer && duration == s.duration && intensity == s.intensity && lightX == s.lightX
        && strike == s.strike
    {
      strike := false;
      if duration > 0.0 {
        duration := duration - dt;
        intensity := roll1 * 20.0;
        lightX := (roll2 - 0.5) * 10.0;
      } else {
        intensity := 0.0;
        timer := timer - dt;
        if timer <= 0.0 {
          duration := 0.1 + roll1 * 0.2;
          timer := 3.0 + roll2 * 5.0;
          strike := true;
        }
      }
    }
  }

  // ----- Breakable props -----

  /** A node that the two prop loops of `setupScene` add to the scene. */
  datatype SceneNode = PointLight(position: Vec3, intensity: real, distance: real)
                     | Mesh(position: Vec3, data: UserData)

  const BulbPositions := [Vec3(0.0, 3.8, 0.0), Vec3(0.0, 3.8, 3.0), Vec3(0.0, 3.8, -3.0)]
  const CratePositions := [Vec3(2.0, 0.25, 2.0), Vec3(-2.0, 0.25, -2.0), Vec3(2.5, 0.25, -1.0), Vec3(-1.5, 1.25, -2.5)]

  const LightTag := Some("light")
  const CrateTag := Some("crate")

  /** The nodes the bulb and crate loops add, in the order they add them; a
      node's `ObjectId` is its index in this list. Every bulb gets its own
      point light at the same place, added just before it. */
  method AddBreakables() returns (nodes: seq<SceneNode>)
    ensures |nodes| == 2 * |BulbPositions| + |CratePositions|
    ensures forall i :: 0 <= i < |nodes| && nodes[i].Mesh? ==> nodes[i].data.breakable
    ensures forall i :: 0 <= i < |nodes| && nodes[i].Mesh? ==>
      nodes[i].data.kind == LightTag || nodes[i].data.kind == CrateTag
    ensures forall i :: 0 <= i < |nodes| && nodes[i].Mesh? && nodes[i].data.kind == LightTag ==>
      var link := nodes[i].data.linkedLight;
      link.Some? && link.value < |nodes| && nodes[link.value].PointLight?
      && nodes[link.value].position == nodes[i].position
    ensures forall i :: 0 <= i < |nodes| && nodes[i].Mesh? && nodes[i].data.kind == CrateTag ==>
      nodes[i].data.linkedLight.None?
    ensures forall k :: 0 <= k < |BulbPositions| ==>
      nodes[2 * k + 1].Mesh? && nodes[2 * k + 1].data.kind == LightTag && nodes[2 * k + 1].position == BulbPositions[k]
    ensures forall k :: 0 <= k < |CratePositions| ==>
      var n := nodes[2 * |BulbPositions| + k];
      n.Mesh? && n.data.kind == CrateTag && n.position == CratePositions[k]
  {
    nodes := [];
    for k := 0 to |BulbPositions|
      invariant |nodes| == 2 * k
      invariant forall i :: 0 <= i < |nodes| && nodes[i].Mesh? ==>
        i > 0 && nodes[i].data == UserData(LightTag, true, Some(i - 1)) && nodes[i - 1].PointLight?
        && nodes[i - 1].position == nodes[i].position
      invariant forall j :: 0 <= j < k ==> nodes[2 * j + 1].Mesh? && nodes[2 * j + 1].position == BulbPositions[j]
    {
      var pos := BulbPositions[k];
      var light := PointLight(pos, 3.0, 12.0);
      var bulb := Mesh(pos, UserData(LightTag, true, Some(|nodes|)));
      nodes := nodes + [light, bulb];
    }
    var bulbCount := |nodes|;
    for k := 0 to |CratePositions|
      invariant |nodes| == bulbCount + k
      invariant forall i :: 0 <= i < bulbCount && nodes[i].Mesh? ==>
        i > 0 && nodes[i].data == UserData(LightTag, true, Some(i - 1)) && nodes[i - 1].PointLight?
        && nodes[i - 1].position == nodes[i].position
      invariant forall j :: 0 <= j < |BulbPositions| ==> nodes[2 * j + 1].Mesh? && nodes[2 * j + 1].position == BulbPositions[j]
      invariant forall i :: bulbCount <= i < |nodes| ==> nodes[i] == Mesh(CratePositions[i - bulbCount], UserData(CrateTag, true, None))
    {
      nodes := nodes + [Mesh(CratePositions[k], UserData(CrateTag, true, None))];
    }
  }
}
