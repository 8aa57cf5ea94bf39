/** The two clamps of the frame loop: the cap on the physics time step and the floor on the
    chase camera's target height. */
module FrameClamps {

  /** The longest time step handed to the physics world, in seconds. */
  const MaxDelta: real := 0.1

  /** The lowest height the chase camera may be pulled towards. */
  const MinCameraHeight: real := 1.0

  /** `Math.min(elapsed, 0.1)`: never more than the cap, the elapsed time itself when that is
      within the cap, and the cap otherwise. */
  function ClampDelta(raw: real): (delta: real)
    ensures delta <= MaxDelta && delta <= raw
    ensures raw <= MaxDelta ==> delta == raw
    ensures raw >= MaxDelta ==> delta == MaxDelta
  {
    if raw < MaxDelta then raw else MaxDelta
  }

  datatype Vec3 = Vec3(x: real, y: real, z: real)

  /** The pivot's world position with its height raised to the floor: never below the floor,
      unchanged when already at or above it, and x and z untouched. */
  function ClampTargetHeight(v: Vec3): (r: Vec3)
    ensures r.y >= MinCameraHeight
    ensures v.y >= MinCameraHeight ==> r == v
    ensures v.y < MinCameraHeight ==> r.y == MinCameraHeight
    ensures r.x == v.x && r.z == v.z
  {
    if v.y < MinCameraHeight then v.(y := MinCameraHeight) else v
  }
}
