/** The per-frame driving controller: how the held keys move the drive speed and the steering
    value. Drive speed is counted in quarters (forwardVelocity = forward4 / 4) and steering in
    tenths (rightVelocity = right10 / 10); every step the source takes is a whole number of
    these units, so the integer arithmetic is exact. */
module Controller {
  import opened Keyboard

  const DriveStep: int := 4     // 1 per tick for W/S and for the brake
  const CoastStep: int := 1     // 0.25 per tick when neither W nor S is held
  const DriveCap: int := 400    // the nominal limit 100 on either side
  const SteerStep: int := 1     // 0.1 per tick for A/D
  const SteerCap: int := 10     // the limit 1 on either side

  /** The largest drive speed the controller can reach: coasting to just under the cap and
      then driving once more overshoots it by one step less a coast step (100.75). */
  const ForwardBound: int := DriveCap + DriveStep - CoastStep

  /** The module-level `forwardVelocity`, `rightVelocity` and `thrusting`, in scaled units. */
  datatype VehicleState = VehicleState(forward4: int, right10: int, thrusting: bool)

  const Rest := VehicleState(0, 0, false)

  predicate InRange(s: VehicleState)
  {
    -ForwardBound <= s.forward4 <= ForwardBound && -SteerCap <= s.right10 <= SteerCap
  }

  function Abs(x: int): nat { if x < 0 then -x else x }

  /** One coast step from `v` to `w`: zero stays zero, anything else loses exactly one coast
      step of magnitude and does not cross to the other sign. */
  predicate CoastedFrom(v: int, w: int)
  {
    && (v == 0 ==> w == 0)
    && (v != 0 ==> Abs(w) == Abs(v) - CoastStep)
    && (v > 0 ==> w >= 0)
    && (v < 0 ==> w <= 0)
  }

  // The individual statements of the control block, in source order.

  /** W/ArrowUp: changes the speed exactly when it is below the cap, and then by exactly one
      step up. */
  function Accelerate(v: int): (r: int)
    ensures r != v <==> v < DriveCap
    ensures v <= r <= v + DriveStep
    ensures v < DriveCap ==> r == v + DriveStep
    ensures v >= DriveCap ==> r == v
    ensures v <= ForwardBound ==> r <= ForwardBound
  {
    if v < DriveCap then v + DriveStep else v
  }

  /** S/ArrowDown: changes the speed exactly when it is above the negated cap, and then by
      exactly one step down. */
  function Reverse(v: int): (r: int)
    ensures r != v <==> v > -DriveCap
    ensures v - DriveStep <= r <= v
    ensures v > -DriveCap ==> r == v - DriveStep
    ensures v <= -DriveCap ==> r == v
    ensures v >= -ForwardBound ==> r >= -ForwardBound
  {
    if v > -DriveCap then v - DriveStep else v
  }

  /** A/ArrowLeft: lowers steering by one step exactly when it is above the left limit, and
      never takes an in-range value out of range. */
  function SteerLeft(r: int): (r': int)
    ensures r' != r <==> r > -SteerCap
    ensures r - SteerStep <= r' <= r
    ensures -SteerCap <= r <= SteerCap ==> -SteerCap <= r' <= SteerCap
  {
    if r > -SteerCap then r - SteerStep else r
  }

  /** D/ArrowRight: raises steering by one step exactly when it is below the right limit, and
      never takes an in-range value out of range. */
  function SteerRight(r: int): (r': int)
    ensures r' != r <==> r < SteerCap
    ensures r <= r' <= r + SteerStep
    ensures -SteerCap <= r <= SteerCap ==> -SteerCap <= r' <= SteerCap
  {
    if r < SteerCap then r + SteerStep else r
  }

  /** Space: the brake's two `if`s run one after the other, so a value the first pulls below
      zero is pushed back up by the second. The effect by case: a whole step off a speed of at
      least one step; nothing on a positive speed below one step; a small negative speed becomes
      positive; a whole step added to a speed of at most minus one step. */
  function Brake(v: int): (r: int)
    ensures v >= DriveStep ==> r == v - DriveStep
    ensures 0 <= v < DriveStep ==> r == v
    ensures -DriveStep < v < 0 ==> r == v + DriveStep && r > 0
    ensures v <= -DriveStep ==> r == v + DriveStep
  {
    var b := if v > 0 then v - DriveStep else v;
    if b < 0 then b + DriveStep else b
  }

  /** Not thrusting: one coast step towards zero, never past it. */
  function Coast(v: int): (r: int)
    ensures CoastedFrom(v, r)
  {
    var c := if v > 0 then v - CoastStep else v;
    if c < 0 then c + CoastStep else c
  }

  /** One tick of the control block. `thrusting` is recomputed from scratch, so the previous
      tick's flag plays no part. */
  function Step(s: VehicleState, c: Controls): (r: VehicleState)
    ensures r.thrusting <==> c.forward || c.backward
    ensures InRange(s) ==> InRange(r)
    // steering: one step per held key, within the limit, and no auto-centring
    ensures !c.left && !c.right ==> r.right10 == s.right10
    ensures c.left && !c.right && -SteerCap < s.right10 ==> r.right10 == s.right10 - SteerStep
    ensures c.right && !c.left && s.right10 < SteerCap ==> r.right10 == s.right10 + SteerStep
    ensures c.left && !c.right && s.right10 <= -SteerCap ==> r.right10 == s.right10
    ensures c.right && !c.left && SteerCap <= s.right10 ==> r.right10 == s.right10
    // both held: left then right cancel, except at the left limit, where only right moves
    ensures c.left && c.right && -SteerCap < s.right10 <= SteerCap ==> r.right10 == s.right10
    ensures c.left && c.right && s.right10 <= -SteerCap ==> r.right10 == s.right10 + SteerStep
    // with no drive key and no brake the tick only coasts
    ensures !c.forward && !c.backward && !c.brake ==> CoastedFrom(s.forward4, r.forward4)
    // forward only adds while below the cap, backward only subtracts while above its negation
    ensures c.forward && !c.backward && !c.brake && s.forward4 < DriveCap ==> r.forward4 == s.forward4 + DriveStep
    ensures c.forward && !c.backward && !c.brake && s.forward4 >= DriveCap ==> r.forward4 == s.forward4
    ensures c.backward && !c.forward && !c.brake && s.forward4 > -DriveCap ==> r.forward4 == s.forward4 - DriveStep
    ensures c.backward && !c.forward && !c.brake && s.forward4 <= -DriveCap ==> r.forward4 == s.forward4
  {
    var thrusting := c.forward || c.backward;
    var v1 := if c.forward then Accelerate(s.forward4) else s.forward4;
    var v2 := if c.backward then Reverse(v1) else v1;
    var r1 := if c.left then SteerLeft(s.right10) else s.right10;
    var r2 := if c.right then SteerRight(r1) else r1;
    var v3 := if c.brake then Brake(v2) else v2;
    var v4 := if !thrusting then Coast(v3) else v3;
    VehicleState(v4, r2, thrusting)
  }

  /** The state after the ticks `cs`, first tick first. Every state reached from an in-range
      state is in range. */
  function Run(s: VehicleState, cs: seq<Controls>): (r: VehicleState)
    ensures InRange(s) ==> InRange(r)
    decreases |cs|
  {
    if cs == [] then s else Run(Step(s, cs[0]), cs[1..])
  }

  /** The state after holding the same inputs for `n` ticks. */
  function Hold(s: VehicleState, c: Controls, n: nat): VehicleState
    decreases n
  {
    if n == 0 then s else Hold(Step(s, c), c, n - 1)
  }
}
