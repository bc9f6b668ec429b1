/** Values shared by the scene and the character: points of the room and the
    `userData` record that marks an object as breakable. */
module World {
  import opened Wrappers

  datatype Vec3 = Vec3(x: real, y: real, z: real)

  /** Identity of a scene-graph object (three.js compares objects by
      reference; the model names each object by a number). */
  type ObjectId = nat

  /** `object.userData`: empty (`{}`) for ordinary geometry; the scene sets
      `type`, `breakable` and, for bulbs, `linkedLight`. */
  datatype UserData = UserData(kind: Option<string>, breakable: bool, linkedLight: Option<ObjectId>)

  const NoUserData := UserData(None, false, None)

  /** `Math.PI` to the digits of its double value. */
  const Pi: real := 3.141592653589793

  function Abs(x: real): (r: real)
    ensures r >= 0.0 && (r == x || r == -x)
  {
    if x < 0.0 then -x else x
  }
}
