/** The firing rules of src/characterController.js: the fire-rate gate, the
    spread table, the recoil kick and its decay, the choice of the hit among
    the ray's intersections, what the hit does, and the ring of at most 50
    bullet decals. */
module Weapon {
  import opened Wrappers
  import opened World

  /** Seconds that must pass between two shots (strictly more). */
  const FireRate: real := 0.15

  // ----- Fire-rate gate -----

  /** `now - lastShotTime > fireRate`, `now` in seconds. */
  function Ready(nowS: real, lastShotTime: real): (ok: bool)
    ensures ok <==> nowS > lastShotTime + FireRate
    ensures ok ==> nowS > lastShotTime
  {
    nowS - lastShotTime > FireRate
  }

  /** The frames, given by their clock readings in seconds, at which a held
      trigger actually fires, starting from `lastShotTime`. */
  function Shots(lastShotTime: real, times: seq<real>): (r: seq<real>)
    ensures |r| <= |times|
    ensures forall t :: t in r ==> t in times
    decreases |times|
  {
    if times == [] then []
    else if Ready(times[0], lastShotTime) then [times[0]] + Shots(times[0], times[1..])
    else Shots(lastShotTime, times[1..])
  }

  /** Two consecutive shots are more than 0.15 s apart, and the first more
      than 0.15 s after the previous shot; in particular two trigger frames
      within one window fire at most once. */
  lemma {:induction false} ShotsSpaced(lastShotTime: real, times: seq<real>)
    ensures var r := Shots(lastShotTime, times);
      && (forall i :: 0 <= i < |r| - 1 ==> r[i + 1] - r[i] > FireRate)
      && (|r| > 0 ==> r[0] - lastShotTime > FireRate)
    decreases |times|
  {
    if times != [] {
      if Ready(times[0], lastShotTime) {
        ShotsSpaced(times[0], times[1..]);
      } else {
        ShotsSpaced(lastShotTime, times[1..]);
      }
    }
  }

  lemma OneShotPerWindow(lastShotTime: real, t1: real, t2: real)
    requires t1 <= t2 <= t1 + FireRate
    ensures |Shots(lastShotTime, [t1, t2])| <= 1
  {
    ShotsSpaced(lastShotTime, [t1, t2]);
    assert [t1, t2][1..] == [t2];
  }

  // ----- Spread -----

  /** The spread table: 0.05 from the hip, 0.005 aiming, plus 0.05 while a
      move key is held. */
  function Spread(aiming: bool, moving: bool): (r: real)
    ensures 0.005 <= r <= 0.1
    ensures aiming ==> r < 0.06
    ensures moving ==> r >= 0.055
  {
    var base := if aiming then 0.005 else 0.05;
    if moving then base + 0.05 else base
  }

  /** A screen-space offset `(Math.random() - 0.5) * spread`: never more
      than half the spread either way. */
  function Offset(roll: real, spread: real): (r: real)
    requires 0.0 <= roll < 1.0
    ensures spread >= 0.0 ==> Abs(r) <= spread / 2.0
    ensures roll == 0.5 ==> r == 0.0
  {
    WithinHalf(roll, spread);
    (roll - 0.5) * spread
  }

  lemma WithinHalf(roll: real, spread: real)
    requires 0.0 <= roll < 1.0
    ensures spread >= 0.0 ==> Abs((roll - 0.5) * spread) <= spread / 2.0
  {
    if spread >= 0.0 {
      var u := Abs(roll - 0.5);
      NonNegProduct(u, spread);
      if roll < 0.5 {
        assert (roll - 0.5) * spread == -(u * spread);
      }
      NonNegProduct(0.5 - u, spread);
      assert (0.5 - u) * spread == spread / 2.0 - u * spread;
    }
  }

  /** The offset is at most half the spread, and for the same random roll
      aiming gives a strictly smaller offset than hip fire (the same when the
      roll is exactly 1/2, where both are 0). */
  lemma AimingTightens(roll: real, moving: bool)
    requires 0.0 <= roll < 1.0
    ensures Abs(Offset(roll, Spread(true, moving))) <= Spread(true, moving) / 2.0
    ensures Abs(Offset(roll, Spread(false, moving))) <= Spread(false, moving) / 2.0
    ensures Spread(true, moving) < Spread(false, moving)
    ensures roll != 0.5 ==> Abs(Offset(roll, Spread(true, moving))) < Abs(Offset(roll, Spread(false, moving)))
  {
    var a, h := Spread(true, moving), Spread(false, moving);
    var u := Abs(roll - 0.5);
    assert u <= 0.5;
    assert Abs(Offset(roll, a)) == u * a;
    assert Abs(Offset(roll, h)) == u * h;
    if roll != 0.5 {
      assert u > 0.0;
      assert u * a < u * h;
    }
  }

  // ----- Recoil -----

  datatype Recoil = Recoil(x: real, y: real)

  /** `THREE.MathUtils.lerp(a, b, t)`: `a` at t = 0, `b` at t = 1. */
  function Lerp(a: real, b: real, t: real): (r: real)
    ensures t == 0.0 ==> r == a
    ensures t == 1.0 ==> r == b
  {
    (1.0 - t) * a + t * b
  }

  /** One frame of recoil recovery, `lerp(r, 0, t)` with `t = dt * rate`:
      for 0 <= t <= 1 neither component grows or changes sign. */
  function Decay(r: Recoil, t: real): (d: Recoil)
    ensures 0.0 <= t <= 1.0 ==>
      && Abs(d.x) <= Abs(r.x) && d.x * r.x >= 0.0
      && Abs(d.y) <= Abs(r.y) && d.y * r.y >= 0.0
  {
    DecayTowardZero(r.x, t);
    DecayTowardZero(r.y, t);
    Recoil(Lerp(r.x, 0.0, t), Lerp(r.y, 0.0, t))
  }

  /** For 0 <= t <= 1 the recoil moves toward 0 without crossing it; for a
      long frame (t > 2, dt > 0.2 s at rate 10) it is amplified instead. */
  lemma DecayTowardZero(v: real, t: real)
    ensures 0.0 <= t <= 1.0 ==> Abs(Lerp(v, 0.0, t)) <= Abs(v) && Lerp(v, 0.0, t) * v >= 0.0
    ensures t > 2.0 && v != 0.0 ==> Abs(Lerp(v, 0.0, t)) > Abs(v)
  {
    // a negative recoil is the mirror image of a positive one
    assert Lerp(v, 0.0, t) == -Lerp(-v, 0.0, t);
    if 0.0 <= t <= 1.0 {
      if v >= 0.0 {
        Settles(v, t);
      } else {
        Settles(-v, t);
      }
    }
    if t > 2.0 && v != 0.0 {
      if v > 0.0 {
        Overshoots(v, t);
      } else {
        Overshoots(-v, t);
      }
    }
  }

  /** From a non-negative recoil a factor in [0, 1] lands in [0, v]. */
  lemma Settles(v: real, t: real)
    requires v >= 0.0 && 0.0 <= t <= 1.0
    ensures 0.0 <= Lerp(v, 0.0, t) <= v
    ensures Lerp(v, 0.0, t) * v >= 0.0
  {
    var u := 1.0 - t;
    assert Lerp(v, 0.0, t) == u * v;
    assert v - u * v == t * v;
    NonNegProduct(t, v);
    NonNegProduct(u, v);
    NonNegProduct(u * v, v);
  }

  /** From a positive recoil a factor above 2 lands below -v. */
  lemma Overshoots(v: real, t: real)
    requires v > 0.0 && t > 2.0
    ensures Lerp(v, 0.0, t) < -v
  {
    var u := t - 1.0;
    assert Lerp(v, 0.0, t) == -(u * v);
    assert u * v - v == (u - 1.0) * v;
    assert (u - 1.0) * v > 0.0;
  }

  lemma NonNegProduct(a: real, b: real)
    requires a >= 0.0 && b >= 0.0
    ensures a * b >= 0.0
  {
  }

  /** The kick of one shot: a sideways jitter within 0.05 and an upward kick
      of 0.05 to 0.07. */
  function Kick(r: Recoil, rollX: real, rollY: real): (k: Recoil)
    requires 0.0 <= rollX < 1.0 && 0.0 <= rollY < 1.0
    ensures -0.05 <= k.x - r.x < 0.05
    ensures 0.05 <= k.y - r.y < 0.07
  {
    Recoil(r.x + (rollX - 0.5) * 0.1, r.y + 0.05 + rollY * 0.02)
  }

  // ----- Hit selection -----

  /** One intersection of the ray: the point, the object hit and its parent
      chain up to the scene root, the face normal if the engine gave a face,
      and the object's `userData`. */
  datatype Hit = Hit(point: Vec3, obj: ObjectId, parents: seq<ObjectId>, faceNormal: Option<Vec3>, data: UserData) {
    /** The object followed by its parents: what the `while (obj)` loop visits. */
    function Ancestry(): seq<ObjectId> {
      [obj] + parents
    }
  }

  /** The hit is on the player's own model: `group` (the character group) is
      the object or one of its ancestors. */
  predicate OwnHit(h: Hit, group: ObjectId) {
    group in h.Ancestry()
  }

  /** The parent walk of the `validHits` filter. */
  method WalksToGroup(h: Hit, group: ObjectId) returns (own: bool)
    ensures own <==> OwnHit(h, group)
  {
    var chain := h.Ancestry();
    var i := 0;
    while i < |chain|
      invariant 0 <= i <= |chain|
      invariant group !in chain[..i]
    {
      if chain[i] == group {
        return true;
      }
      i := i + 1;
    }
    assert chain[..i] == chain;
    return false;
  }

  /** `intersects.filter(...)`: the hits not on the player's own model, in
      the engine's (nearest first) order. */
  function ValidHits(hits: seq<Hit>, group: ObjectId): (r: seq<Hit>)
    ensures |r| <= |hits|
    ensures forall i :: 0 <= i < |r| ==> r[i] in hits && !OwnHit(r[i], group)
    ensures forall i :: 0 <= i < |hits| && !OwnHit(hits[i], group) ==> hits[i] in r
  {
    if hits == [] then []
    else
      var rest := ValidHits(hits[1..], group);
      assert forall i :: 1 <= i < |hits| ==> hits[i] == hits[1..][i - 1];
      if OwnHit(hits[0], group) then rest else [hits[0]] + rest
  }

  /** The first valid hit is the first hit whose ancestry misses `group`:
      every hit before it is the player's own. */
  lemma {:induction false} FirstValidHit(hits: seq<Hit>, group: ObjectId)
    ensures var r := ValidHits(hits, group);
      |r| > 0 ==>
        exists k :: 0 <= k < |hits| && hits[k] == r[0] && forall j :: 0 <= j < k ==> OwnHit(hits[j], group)
  {
    if hits == [] {
      return;
    }
    var rest := ValidHits(hits[1..], group);
    if !OwnHit(hits[0], group) {
      assert ValidHits(hits, group) == [hits[0]] + rest;
      assert hits[0] == ValidHits(hits, group)[0];
      return;
    }
    assert ValidHits(hits, group) == rest;
    FirstValidHit(hits[1..], group);
    if |rest| > 0 {
      var k :| 0 <= k < |hits[1..]| && hits[1..][k] == rest[0]
        && forall j :: 0 <= j < k ==> OwnHit(hits[1..][j], group);
      assert hits[k + 1] == rest[0];
      assert forall j :: 1 <= j < k + 1 ==> hits[j] == hits[1..][j - 1];
      assert forall j :: 0 <= j < k + 1 ==> OwnHit(hits[j], group);
    }
  }

  const Up := Vec3(0.0, 1.0, 0.0)
  const Down := Vec3(0.0, -1.0, 0.0)

  /** The object the shot strikes, with the normal at the point. */
  datatype Struck = Struck(obj: ObjectId, normal: Vec3, data: UserData)

  /** Where the shot goes: the first valid hit's point, or the far point at
      distance 100 along the ray when nothing valid was hit. */
  datatype Aim = Aim(target: Vec3, struck: Option<Struck>)

  function ResolveShot(hits: seq<Hit>, group: ObjectId, farPoint: Vec3): (a: Aim)
    ensures a.struck.None? <==> forall i :: 0 <= i < |hits| ==> OwnHit(hits[i], group)
    ensures a.struck.None? ==> a.target == farPoint
    ensures a.struck.Some? ==>
      (exists k :: 0 <= k < |hits| && !OwnHit(hits[k], group)
        && (forall j :: 0 <= j < k ==> OwnHit(hits[j], group))
        && a.target == hits[k].point
        && a.struck.value == Struck(hits[k].obj, hits[k].faceNormal.GetOr(Up), hits[k].data))
  {
    var valid := ValidHits(hits, group);
    FirstValidHit(hits, group);
    if |valid| > 0 then
      var h := valid[0];
      Aim(h.point, Some(Struck(h.obj, h.faceNormal.GetOr(Up), h.data)))
    else
      Aim(farPoint, None)
  }

  /** What a shot does to the scene. A breakable bulb is removed with its
      point light; a breakable crate is removed; a breakable object of any
      other type is left alone; anything else gets sparks and a decal. */
  datatype Impact = NoImpact
                  | Mark(point: Vec3, normal: Vec3)
                  | BreakLight(obj: ObjectId, light: Option<ObjectId>, point: Vec3)
                  | BreakCrate(obj: ObjectId, point: Vec3)
                  | BreakOther(obj: ObjectId)

  function ImpactOf(a: Aim): (i: Impact)
    ensures a.struck.None? <==> i.NoImpact?
    ensures a.struck.Some? && !a.struck.value.data.breakable ==> i == Mark(a.target, a.struck.value.normal)
    ensures i.BreakLight? || i.BreakCrate? || i.BreakOther? ==>
      a.struck.Some? && a.struck.value.data.breakable && i.obj == a.struck.value.obj
    ensures i.BreakLight? <==> a.struck.Some? && a.struck.value.data.breakable && a.struck.value.data.kind == Some("light")
    ensures i.BreakCrate? <==> a.struck.Some? && a.struck.value.data.breakable && a.struck.value.data.kind == Some("crate")
    ensures i.BreakLight? ==> i.light == a.struck.value.data.linkedLight
    ensures i.Mark? <==> a.struck.Some? && !a.struck.value.data.breakable
    ensures i.BreakOther? <==>
      (a.struck.Some? && a.struck.value.data.breakable
       && a.struck.value.data.kind != Some("light") && a.struck.value.data.kind != Some("crate"))
    ensures i.BreakLight? ==> i.point == a.target
    ensures i.BreakCrate? ==> i.point == a.target
  {
    match a.struck
    case None => NoImpact
    case Some(s) =>
      if !s.data.breakable then Mark(a.target, s.normal)
      else if s.data.kind == Some("light") then BreakLight(s.obj, s.data.linkedLight, a.target)
      else if s.data.kind == Some("crate") then BreakCrate(s.obj, a.target)
      else BreakOther(s.obj)
  }

  /** Where a decal is placed and how it faces: at an ordinary hit along the
      face normal; a broken bulb also gets sparks and a decal, facing down. */
  datatype Placement = Placement(position: Vec3, normal: Vec3)

  function DecalPlacement(i: Impact): (p: Option<Placement>)
    ensures p.Some? <==> i.Mark? || i.BreakLight?
    ensures i.Mark? ==> p == Some(Placement(i.point, i.normal))
    ensures i.BreakLight? ==> p == Some(Placement(i.point, Down))
  {
    match i
    case Mark(point, normal) => Some(Placement(point, normal))
    case BreakLight(_, _, point) => Some(Placement(point, Down))
    case _ => None
  }

  /** The scene objects a shot removes: a bulb and its linked light, or a
      crate. */
  function Removes(i: Impact): (r: set<ObjectId>)
    ensures i.BreakLight? ==> forall o :: o in r <==> o == i.obj || i.light == Some(o)
    ensures i.BreakCrate? ==> r == {i.obj}
    ensures !i.BreakLight? && !i.BreakCrate? ==> r == {}
  {
    match i
    case BreakLight(o, light, _) => {o} + (if light.Some? then {light.value} else {})
    case BreakCrate(o, _) => {o}
    case _ => {}
  }

  // ----- Decal ring -----

  const MaxDecals: nat := 50

  datatype Decal = Decal(position: Vec3, normal: Vec3, size: real, spin: real)

  /** A new decal, its size and spin drawn from two rolls. */
  function NewDecal(p: Placement, sizeRoll: real, spinRoll: real): (d: Decal)
    requires 0.0 <= sizeRoll < 1.0 && 0.0 <= spinRoll < 1.0
    ensures d.position == p.position && d.normal == p.normal
    ensures 0.15 <= d.size < 0.25
    ensures 0.0 <= d.spin < 2.0 * Pi
  {
    Decal(p.position, p.normal, 0.15 + sizeRoll * 0.1, spinRoll * Pi * 2.0)
  }

  /** `decals.push(d)` followed by one `shift()` when the list then holds
      more than 50. */
  function PushDecal(decals: seq<Decal>, d: Decal): (r: seq<Decal>)
    ensures |decals| < MaxDecals ==> r == decals + [d]
    ensures |decals| >= MaxDecals ==> r == decals[1..] + [d]
    ensures |decals| <= MaxDecals ==> |r| <= MaxDecals
  {
    var pushed := decals + [d];
    if |pushed| > MaxDecals then pushed[1..] else pushed
  }

  /** The decal `PushDecal` evicts, if any: the oldest one. */
  function Evicted(decals: seq<Decal>, d: Decal): (e: Option<Decal>)
    ensures e.Some? <==> |decals| >= MaxDecals
    ensures e.Some? ==> e.value == decals[0] && [e.value] + PushDecal(decals, d) == decals + [d]
  {
    if |decals| >= MaxDecals then Some(decals[0]) else None
  }

  function PushAll(decals: seq<Decal>, ds: seq<Decal>): seq<Decal>
    decreases |ds|
  {
    if ds == [] then decals else PushDecal(PushAll(decals, ds[..|ds| - 1]), ds[|ds| - 1])
  }

  /** The 50 newest entries of `s` (all of them when there are fewer). */
  function Newest(s: seq<Decal>): (r: seq<Decal>)
    ensures |r| <= MaxDecals
  {
    if |s| <= MaxDecals then s else s[|s| - MaxDecals..]
  }

  /** After any number of shots the ring holds exactly the 50 newest decals,
      oldest first. */
  lemma {:induction false} RingKeepsNewest(decals: seq<Decal>, ds: seq<Decal>)
    requires |decals| <= MaxDecals
    ensures PushAll(decals, ds) == Newest(decals + ds)
    decreases |ds|
  {
    if ds != [] {
      var n := |ds| - 1;
      RingKeepsNewest(decals, ds[..n]);
      var before := decals + ds[..n];
      assert decals + ds == before + [ds[n]];
      if |before| < MaxDecals {
        assert Newest(before) == before;
      } else {
        var s := before + [ds[n]];
        assert Newest(before)[1..] + [ds[n]] == s[|s| - MaxDecals..];
      }
    }
  }
}
